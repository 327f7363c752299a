/** The job state string kept in the store under `<process>_<jobId>_state`,
    of the form `"<TOKEN>,<PROGRESS>%"`, and how the controller reads it:
    the token is `split(",")[0]` and the progress is
    `Integer.valueOf(split(",")[1].replace("%", ""))`. */
module JobState {
  import opened Optional
  import opened JavaText

  /** What a well-formed state string says: the raw token and the progress. */
  datatype Reading = Reading(token: string, progress: int)

  /** `state.split(",")[0]`; `None` where that throws, which is when the
      string is made of commas only. */
  function Token(state: string): (t: Option<string>)
    ensures t.Some? <==> !OnlyCommas(state)
    ensures t.Some? ==> t.value == state[..IndexOf(state, ',')]
    ensures t.Some? ==> ',' !in t.value
  {
    SplitHead(state);
    var parts := Split(state);
    if |parts| == 0 then None else Some(parts[0])
  }

  /** Token and progress of a state string, read the way `getStatus` reads
      them; `None` where that throws (no element 1 after the split, or an
      element 1 that is not an `int` once its `%` signs are gone). */
  function Decode(state: string): (r: Option<Reading>)
    ensures r.Some? ==> InIntRange(r.value.progress)
  {
    var parts := Split(state);
    if |parts| < 2 then None
    else
      match ParseInt(RemoveAll(parts[1], '%'))
      case None => None
      case Some(p) => Some(Reading(parts[0], p))
  }

  /** The second comma field of the raw string, before any split cleanup. */
  function SecondField(state: string): string
    requires ',' in state
  {
    Fields(state)[1]
  }

  /** Decoding succeeds exactly when the string has a comma and its second
      comma field, with every `%` removed, is a valid decimal `int`; the
      progress is then that number, unclamped, and the token is the text
      before the first comma. */
  lemma DecodeSpec(state: string)
    ensures Decode(state).Some? <==>
              ',' in state && ParseInt(RemoveAll(SecondField(state), '%')).Some?
    ensures Decode(state).Some? ==>
              && Decode(state).value.token == state[..IndexOf(state, ',')]
              && Decode(state).value.progress == ParseInt(RemoveAll(SecondField(state), '%')).value
              && Token(state) == Some(Decode(state).value.token)
  {
  }

  /** The state string a job is written with: token, comma, the progress as
      `Integer.toString` prints it, percent sign. */
  function Encode(token: string, progress: int): string {
    token + "," + IntToString(progress) + "%"
  }

  /** Reading back a written state string gives the token and progress it
      was written with, for any comma-free token (the empty one included)
      and any `int` progress. */
  lemma DecodeEncode(token: string, progress: int)
    requires ',' !in token
    requires InIntRange(progress)
    ensures Decode(Encode(token, progress)) == Some(Reading(token, progress))
  {
    var digits := IntToString(progress);
    var state := Encode(token, progress);
    assert state == token + [','] + (digits + "%");
    FieldsOfPrefixed(token, digits + "%");
    IndexOfAfterPrefix(token, ',', digits + "%");
    assert ',' !in digits + "%";
    assert SecondField(state) == digits + "%";
    RemoveAllAppend(digits, "%", '%');
    assert RemoveAll("%", '%') == "";
    assert RemoveAll(digits + "%", '%') == digits;
    ParseIntToString(progress);
    DecodeSpec(state);
    assert state[..|token|] == token;
  }
}

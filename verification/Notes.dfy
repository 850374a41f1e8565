/** Author-supplied release notes: what is refused, and the one normal form that is stored. */
module Notes {
  import opened Basics

  const MAX_RELEASE_NOTES_BYTES := 2048

  datatype NotesError = NotesTooLong | NotesControlCharacter

  /** The UTF-8 length of one character. */
  function CharBytes(c: char): nat {
    if c < '\U{80}' then 1 else if c < '\U{800}' then 2 else if c < '\U{10000}' then 3 else 4
  }

  /** Go's `len` of a string. */
  function ByteLen(s: string): nat {
    if s == "" then 0 else CharBytes(s[0]) + ByteLen(s[1..])
  }

  /** C0, C1 or DEL. */
  predicate IsControl(c: char) {
    c < ' ' || '\U{7F}' <= c <= '\U{9F}'
  }

  /** strings.ReplaceAll(s, "\r\n", "\n"). */
  function FoldCrLf(s: string): string {
    if s == "" then ""
    else if |s| >= 2 && s[0] == '\r' && s[1] == '\n' then "\n" + FoldCrLf(s[2..])
    else [s[0]] + FoldCrLf(s[1..])
  }

  /** strings.ReplaceAll(s, "\r", "\n"). */
  function FoldCr(s: string): (r: string)
    ensures '\r' !in r
  {
    if s == "" then "" else [if s[0] == '\r' then '\n' else s[0]] + FoldCr(s[1..])
  }

  predicate IsNotesMargin(c: char) {
    c == ' ' || c == '\t' || c == '\n'
  }

  function Normalise(notes: string): string {
    Trim(FoldCr(FoldCrLf(notes)), IsNotesMargin)
  }

  predicate PlainNotes(s: string) {
    forall i :: 0 <= i < |s| ==> s[i] == '\n' || s[i] == '\t' || !IsControl(s[i])
  }

  function ValidateReleaseNotes(notes: string): (r: Result<string, NotesError>)
  {
    if notes == "" then Ok("")
    else
      var n := Normalise(notes);
      if !PlainNotes(n) then Err(NotesControlCharacter)
      else if ByteLen(n) > MAX_RELEASE_NOTES_BYTES then Err(NotesTooLong)
      else Ok(n)
  }

  /** What a stored note is: trimmed, free of every control character but newline and tab, and
      within the cap the column and the index budget share. */
  ghost predicate StoredNotes(s: string) {
    Trimmed(s, IsNotesMargin) && PlainNotes(s) && ByteLen(s) <= MAX_RELEASE_NOTES_BYTES
  }

  lemma {:induction false} WithoutCrUnchanged(s: string)
    requires '\r' !in s
    ensures FoldCrLf(s) == s && FoldCr(s) == s
  {
    if s != "" {
      WithoutCrUnchanged(s[1..]);
      assert s == [s[0]] + s[1..];
    }
  }

  lemma PlainHasNoCr(s: string)
    requires PlainNotes(s)
    ensures '\r' !in s && '\0' !in s
  {
  }

  /** The accepted notes are exactly the stored forms: every result is one, and every one is its
      own result, so validating twice is validating once. */
  lemma AcceptedAreFixedPoints(notes: string)
    ensures ValidateReleaseNotes(notes).Ok? ==> StoredNotes(ValidateReleaseNotes(notes).value)
    ensures StoredNotes(notes) <==> ValidateReleaseNotes(notes) == Ok(notes)
  {
    if StoredNotes(notes) {
      PlainHasNoCr(notes);
      WithoutCrUnchanged(notes);
      TrimOfTrimmed(notes, IsNotesMargin);
    }
  }

  /** The same text with every newline written as `ending`. */
  function Respell(s: string, ending: string): string {
    if s == "" then ""
    else (if s[0] == '\n' then ending else [s[0]]) + Respell(s[1..], ending)
  }

  lemma {:induction false} RespelledFolds(s: string, ending: string)
    requires '\r' !in s
    requires ending == "\n" || ending == "\r" || ending == "\r\n"
    ensures FoldCr(FoldCrLf(Respell(s, ending))) == s
    ensures ending == "\r" && s != "" ==> Respell(s, ending)[0] != '\n'
  {
    if s != "" {
      var rest := Respell(s[1..], ending);
      RespelledFolds(s[1..], ending);
      assert s == [s[0]] + s[1..];
      var here := if s[0] == '\n' then ending else [s[0]];
      if s[0] == '\n' && ending == "\r\n" {
        assert (here + rest)[2..] == rest;
        assert "\n" + FoldCrLf(rest) == ['\n'] + FoldCrLf(rest);
        FoldCrStep('\n', FoldCrLf(rest));
      } else {
        assert (here + rest)[1..] == rest;
        assert |rest| > 0 && here == "\r" ==> rest[0] != '\n';
        FoldCrStep(here[0], FoldCrLf(rest));
      }
    }
  }

  lemma FoldCrStep(c: char, t: string)
    ensures FoldCr([c] + t) == [if c == '\r' then '\n' else c] + FoldCr(t)
  {
    assert ([c] + t)[1..] == t;
  }

  /** Notes written with CRLF, CR or LF line endings are stored as the same text, or refused with
      the same error. */
  lemma SpellingDoesNotMatter(s: string, ending: string)
    requires '\r' !in s
    requires ending == "\n" || ending == "\r" || ending == "\r\n"
    ensures ValidateReleaseNotes(Respell(s, ending)) == ValidateReleaseNotes(s)
  {
    RespelledFolds(s, ending);
    WithoutCrUnchanged(s);
    if s != "" {
      assert Respell(s, ending) != "";
    }
  }
}

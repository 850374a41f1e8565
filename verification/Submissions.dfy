/** A publish request, from the raw fields to a validated submission, and the text that identifies
    it when its idempotency key is presented again. */
module Submissions {
  import opened Basics
  import opened Notes

  const MAX_VERSION_BYTES := 64
  const MAX_SDK_SPECIFIER_BYTES := 128
  const MAX_ARTIFACT_URL_BYTES := 2048
  const DIGEST_HEX_LENGTH := 64

  datatype SubmissionError =
    | InvalidPluginId
    | NoVersion
    | BadArtifactUrl
    | InvalidDigest
    | NoSdkSpecifier
    | BadMinimumAppVersion
    | BadNotes(notesError: NotesError)

  datatype RawSubmission = RawSubmission(
    pluginId: string, version: string, artifactUrl: string, artifactSha256: string,
    sdkSpecifier: string, minimumAppVersion: Option<string>, notes: string)

  datatype Submission = Submission(
    plugin: string, version: string, url: string, submitted: string,
    sdk: string, minApp: Option<string>, notes: string)

  // ---- the accepted shapes ----

  predicate IsLowerLetter(c: char) {
    'a' <= c <= 'z'
  }

  /** ^[a-z][a-z0-9_-]{1,39}$ */
  predicate IsPluginId(s: string) {
    && 2 <= |s| <= 40 && IsLowerLetter(s[0])
    && forall i :: 0 <= i < |s| ==> IsLowerLetter(s[i]) || IsDigit(s[i]) || s[i] == '_' || s[i] == '-'
  }

  predicate IsAlphanumeric(c: char) {
    IsLowerLetter(c) || 'A' <= c <= 'Z' || IsDigit(c)
  }

  /** ^[A-Za-z0-9][A-Za-z0-9._+!-]*$ */
  predicate IsVersionText(s: string) {
    && s != "" && IsAlphanumeric(s[0])
    && forall i :: 0 <= i < |s| ==> IsAlphanumeric(s[i]) || s[i] in "._+!-"
  }

  /** checkVersion: not empty, within the cap, and of the shape above. */
  predicate CheckVersion(s: string) {
    s != "" && ByteLen(s) <= MAX_VERSION_BYTES && IsVersionText(s)
  }

  predicate IsLowerHex(c: char) {
    IsDigit(c) || 'a' <= c <= 'f'
  }

  /** 64 lowercase hex characters. */
  predicate IsDigestHex(s: string) {
    |s| == DIGEST_HEX_LENGTH && forall i :: 0 <= i < |s| ==> IsLowerHex(s[i])
  }

  function Zeroes(): (s: string)
    ensures IsDigestHex(s) && forall i :: 0 <= i < |s| ==> s[i] == '0'
  {
    seq(DIGEST_HEX_LENGTH, _ => '0')
  }

  /** What hex.EncodeToString makes of 32 bytes. */
  type HexDigest = s: string | IsDigestHex(s) witness Zeroes()

  const ZERO_DIGEST: HexDigest := Zeroes()

  predicate IsPlainText(s: string) {
    forall i :: 0 <= i < |s| ==> !IsControl(s[i])
  }

  const HTTPS_PREFIX := "https://"

  /** The scheme is https in any case, followed by an authority. */
  predicate HasHttpsPrefix(url: string) {
    |url| >= |HTTPS_PREFIX| && FoldAscii(url[..|HTTPS_PREFIX|]) == HTTPS_PREFIX
  }

  /** What stands between the scheme and the path. */
  function Authority(url: string): string
    requires HasHttpsPrefix(url)
  {
    UpToSlash(url[|HTTPS_PREFIX|..])
  }

  function UpToSlash(s: string): string {
    if s == "" || s[0] == '/' then "" else [s[0]] + UpToSlash(s[1..])
  }

  /** What url.Parse refuses outside a fragment. The C1 controls are not among them. */
  predicate IsAsciiControl(c: char) {
    c < ' ' || c == '\U{7F}'
  }

  /** A `#` with nothing behind it is cut off before the rest is parsed, and is no fragment. */
  function WithoutEmptyFragment(url: string): string {
    if url != "" && url[|url| - 1] == '#' then url[..|url| - 1] else url
  }

  /** A URL the registry will fetch and publish: https with a host, and none of the places a
      credential travels in: userinfo, query, fragment. */
  predicate IsPublishableUrl(url: string) {
    var u := WithoutEmptyFragment(url);
    && HasHttpsPrefix(u)
    && Authority(u) != "" && Authority(u)[0] != ':' && '@' !in Authority(u)
    && forall i :: 0 <= i < |u| ==> !IsAsciiControl(u[i]) && u[i] != '?' && u[i] != '#'
  }

  lemma PublishableUrlShape(url: string)
    requires IsPublishableUrl(url)
    ensures HasHttpsPrefix(url) && '\0' !in url
  {
    var u := WithoutEmptyFragment(url);
    assert url[..|HTTPS_PREFIX|] == u[..|HTTPS_PREFIX|];
    forall i | 0 <= i < |url|
      ensures url[i] != '\0'
    {
      if i < |u| {
        assert u[i] == url[i];
      }
    }
  }

  // ---- NewSubmission ----

  function ParseSubmittedDigest(s: string): (r: Option<string>)
    ensures r.Some? ==> IsDigestHex(r.value)
  {
    var lowered := FoldAscii(TrimSpace(s));
    if IsDigestHex(lowered) then Some(lowered) else None
  }

  function CheckMinimumAppVersion(raw: Option<string>): (r: Result<Option<string>, SubmissionError>)
    ensures r.Ok? && r.value.Some? ==> CheckVersion(r.value.value)
  {
    if raw.None? || TrimSpace(raw.value) == "" then Ok(None)
    else if !CheckVersion(TrimSpace(raw.value)) then Err(BadMinimumAppVersion)
    else Ok(Some(TrimSpace(raw.value)))
  }

  function NewSubmission(raw: RawSubmission): Result<Submission, SubmissionError>
  {
    var id, version, url := TrimSpace(raw.pluginId), TrimSpace(raw.version), TrimSpace(raw.artifactUrl);
    if !IsPluginId(id) then Err(InvalidPluginId)
    else if !CheckVersion(version) then Err(NoVersion)
    else if ByteLen(url) > MAX_ARTIFACT_URL_BYTES || !IsPublishableUrl(url) then Err(BadArtifactUrl)
    else match ParseSubmittedDigest(raw.artifactSha256)
      case None => Err(InvalidDigest)
      case Some(submitted) =>
        var sdk := TrimSpace(raw.sdkSpecifier);
        if sdk == "" || ByteLen(sdk) > MAX_SDK_SPECIFIER_BYTES || !IsPlainText(sdk) then Err(NoSdkSpecifier)
        else match CheckMinimumAppVersion(raw.minimumAppVersion)
          case Err(e) => Err(e)
          case Ok(minApp) =>
            match ValidateReleaseNotes(raw.notes)
            case Err(e) => Err(BadNotes(e))
            case Ok(notes) => Ok(Submission(id, version, url, submitted, sdk, minApp, notes))
  }

  /** What every field of a validated submission is. */
  ghost predicate ValidSubmission(s: Submission) {
    && IsPluginId(s.plugin) && CheckVersion(s.version) && IsPublishableUrl(s.url)
    && IsDigestHex(s.submitted) && s.sdk != "" && IsPlainText(s.sdk)
    && (s.minApp.Some? ==> CheckVersion(s.minApp.value))
    && StoredNotes(s.notes)
  }

  /** Whatever the raw fields were, only a valid submission comes out. */
  lemma NewSubmissionValidates(raw: RawSubmission)
    ensures NewSubmission(raw).Ok? ==> ValidSubmission(NewSubmission(raw).value)
  {
    hide TrimSpace, IsPluginId, CheckVersion, IsPublishableUrl, IsDigestHex, IsPlainText, ByteLen, StoredNotes;
    AcceptedAreFixedPoints(raw.notes);
  }

  // ---- the idempotency pre-image ----

  /** strings.Join with the NUL separator. */
  function JoinNul(fields: seq<string>): string {
    if fields == [] then "" else if |fields| == 1 then fields[0]
    else fields[0] + "\0" + JoinNul(fields[1..])
  }

  function Fields(s: Submission): seq<string> {
    [s.plugin, s.version, s.url, s.submitted, s.sdk, if s.minApp.Some? then s.minApp.value else "", s.notes]
  }

  /** What hashRequest feeds to SHA-256. */
  function RequestPreimage(s: Submission): string {
    JoinNul(Fields(s))
  }

  ghost predicate NulFree(fields: seq<string>) {
    forall i :: 0 <= i < |fields| ==> '\0' !in fields[i]
  }

  /** Two NUL-separated lists of equal length with NUL-free entries are equal when their joins are. */
  lemma {:induction false} JoinNulInjective(a: seq<string>, b: seq<string>)
    requires |a| == |b| && NulFree(a) && NulFree(b)
    requires JoinNul(a) == JoinNul(b)
    ensures a == b
  {
    if |a| == 1 {
      assert a == [a[0]] && b == [b[0]];
    } else if |a| > 1 {
      FirstFieldEqual(a[0], JoinNul(a[1..]), b[0], JoinNul(b[1..]));
      JoinNulInjective(a[1..], b[1..]);
      assert a == [a[0]] + a[1..] && b == [b[0]] + b[1..];
    }
  }

  lemma FirstFieldEqual(x: string, s: string, y: string, t: string)
    requires '\0' !in x && '\0' !in y
    requires x + "\0" + s == y + "\0" + t
    ensures x == y && s == t
  {
    var whole := x + "\0" + s;
    assert whole[|x|] == '\0' && whole[|y|] == '\0';
    assert forall i :: 0 <= i < |x| ==> whole[i] == x[i];
    assert forall i :: 0 <= i < |y| ==> whole[i] == y[i];
    assert whole[..|x|] == x && whole[..|y|] == y;
    assert whole[|x| + 1..] == s && whole[|y| + 1..] == t;
  }

  lemma ValidFieldsAreNulFree(s: Submission)
    requires ValidSubmission(s)
    ensures NulFree(Fields(s))
  {
    PlainHasNoCr(s.notes);
    PublishableUrlShape(s.url);
  }

  /** Two validated submissions with the same pre-image are the same submission. */
  lemma PreimageInjective(s: Submission, t: Submission)
    requires ValidSubmission(s) && ValidSubmission(t)
    ensures RequestPreimage(s) == RequestPreimage(t) <==> s == t
  {
    if RequestPreimage(s) == RequestPreimage(t) {
      ValidFieldsAreNulFree(s);
      ValidFieldsAreNulFree(t);
      JoinNulInjective(Fields(s), Fields(t));
      FieldsDetermine(s, t);
    }
  }

  lemma FieldsDetermine(s: Submission, t: Submission)
    requires ValidSubmission(s) && ValidSubmission(t) && Fields(s) == Fields(t)
    ensures s == t
  {
    var a, b := Fields(s), Fields(t);
    assert a[0] == b[0] && a[1] == b[1] && a[2] == b[2] && a[3] == b[3] && a[4] == b[4] && a[5] == b[5] && a[6] == b[6];
  }
}

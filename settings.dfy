/**
 * Values of the Flask configuration the webhook extension reads
 * (`GITHUBAPP_ID`, `GITHUBAPP_KEY`, `GITHUBAPP_SECRET`, `GITHUBAPP_URL`,
 * `GITHUBAPP_ROUTE`), and the `key`/`secret` encoding step.
 */
module Settings {
  import opened PyText

  /** A configuration value: the literal False, True, None, an int, a str or bytes. */
  datatype Setting = SFalse | STrue | SNone | SInt(i: int) | SStr(s: string) | SBytes(bytes: seq<byte>)

  /**
   * The `key` and `secret` properties: a value that has `.encode` (a str)
   * becomes its UTF-8 bytes; every other value is passed on unchanged.
   */
  function Encoded(v: Setting): (r: Setting)
    ensures !r.SStr?
    ensures v.SStr? ==> r == SBytes(Utf8(v.s)) && |r.bytes| >= |v.s|
    ensures !v.SStr? ==> r == v
  {
    match v
    case SStr(s) => Utf8Lengths(s); SBytes(Utf8(s))
    case _ => v
  }

  lemma {:induction false} Utf8Lengths(s: string)
    ensures |Utf8(s)| >= |s|
  {
    if s != [] {
      Utf8Lengths(s[1..]);
    }
  }

  /** An ASCII secret is keyed with exactly its character codes. */
  lemma AsciiSecretBytes(s: string)
    requires forall i :: 0 <= i < |s| ==> s[i] as int < 0x80
    ensures Encoded(SStr(s)).SBytes?
    ensures |Encoded(SStr(s)).bytes| == |s|
    ensures forall i :: 0 <= i < |s| ==> Encoded(SStr(s)).bytes[i] == s[i] as int
  {
    Utf8Ascii(s);
  }
}

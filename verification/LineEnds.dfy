module LineEnds {
  /** Line ends made one LF, as frames (internal/web/stream_sender.go) and
      message bodies (internal/conversation/message.go) make them. */

  /** strings.ReplaceAll(s, "\r\n", "\n"). */
  function WithoutCrlf(s: string): string {
    if |s| < 2 then s
    else if s[0] == '\r' && s[1] == '\n' then "\n" + WithoutCrlf(s[2..])
    else [s[0]] + WithoutCrlf(s[1..])
  }

  /** strings.ReplaceAll(s, "\r", "\n"). */
  function WithoutCr(s: string): string {
    if s == "" then "" else [if s[0] == '\r' then '\n' else s[0]] + WithoutCr(s[1..])
  }

  /** Each of the standard's line ends, CRLF, CR or LF, is one LF. */
  function Unified(s: string): string {
    if s == "" then ""
    else if s[0] != '\r' then [s[0]] + Unified(s[1..])
    else if |s| > 1 && s[1] == '\n' then "\n" + Unified(s[2..])
    else "\n" + Unified(s[1..])
  }

  /** The two replacements unify the line ends, as the standard reads them. */
  lemma {:induction false} Replacements(s: string)
    ensures WithoutCr(WithoutCrlf(s)) == Unified(s)
    decreases |s|
  {
    if |s| > 1 && s[0] == '\r' && s[1] == '\n' {
      Replacements(s[2..]);
      assert WithoutCrlf(s)[1..] == WithoutCrlf(s[2..]);
    } else if |s| > 1 {
      Replacements(s[1..]);
      assert WithoutCrlf(s)[1..] == WithoutCrlf(s[1..]);
    } else if |s| == 1 {
      assert s[1..] == "";
    }
  }

  lemma {:induction false} NoCr(s: string)
    ensures '\r' !in Unified(s)
    decreases |s|
  {
    if s != "" {
      if s[0] == '\r' && |s| > 1 && s[1] == '\n' {
        NoCr(s[2..]);
      } else {
        NoCr(s[1..]);
      }
    }
  }

  /** A text without CR is left alone. */
  lemma {:induction false} UnifiedSame(s: string)
    requires '\r' !in s
    ensures Unified(s) == s
  {
    if s != "" {
      assert s[0] in s && forall c :: c in s[1..] ==> c in s;
      UnifiedSame(s[1..]);
    }
  }
}

/**
 * The server's one-time-password helpers: `generateOTP` and the e-mail shape
 * that `/api/send-otp` accepts. `Math.random()` is the parameter `u`, a real in
 * [0, 1).
 */
module Otp {
  import opened Wrappers
  import opened Text

  /** `Math.floor(1000 + Math.random() * 9000).toString()`. */
  function GenerateOtp(u: real): (otp: string)
    requires 0.0 <= u < 1.0
    ensures |otp| == 4 && AllDigits(otp) && otp[0] != '0'
    ensures exists n: nat :: 1000 <= n <= 9999 && otp == NatToString(n) && ParseInt(otp) == Some(n)
  {
    var n := (1000.0 + u * 9000.0).Floor;
    assert 1000 <= n <= 9999;
    FourDigitRendering(n);
    ParseIntOfRendering(n, []);
    assert NatToString(n) + [] == NatToString(n);
    NatToString(n)
  }

  // ---------------------------------------------------------------------------
  // The e-mail pattern `^[^\s@]+@[^\s@]+\.[^\s@]+$`

  /** A character of the class `[^\s@]`. */
  predicate EmailChar(c: char) {
    c != '@' && !IsSpace(c)
  }

  predicate AllEmailChars(s: string) {
    forall i :: 0 <= i < |s| ==> EmailChar(s[i])
  }

  /** What the regular expression accepts: three non-empty runs of `[^\s@]`,
      the first two separated by '@' and the last two by '.'. */
  predicate MatchesEmailPattern(s: string) {
    exists i, j :: 0 < i && i + 1 < j && j + 1 < |s| && s[i] == '@' && s[j] == '.'
      && AllEmailChars(s[..i]) && AllEmailChars(s[i + 1..j]) && AllEmailChars(s[j + 1..])
  }

  /** The first position of `c` in `s`. */
  function IndexOf(s: string, c: char): (r: Option<nat>)
    ensures r.Some? ==> r.value < |s| && s[r.value] == c && c !in s[..r.value]
    ensures r.None? ==> c !in s
  {
    if s == [] then None
    else if s[0] == c then Some(0)
    else match IndexOf(s[1..], c)
      case None => None
      case Some(k) => assert s[..k + 1] == [s[0]] + s[1..][..k]; Some(k + 1)
  }

  /** The check as a single scan: a non-empty local part up to the first '@',
      then a host of at least three characters with a '.' strictly inside it,
      and no white space and no second '@' anywhere. */
  predicate ValidEmail(s: string) {
    match IndexOf(s, '@')
    case None => false
    case Some(i) =>
      var host := s[i + 1..];
      && i > 0 && AllEmailChars(s[..i]) && AllEmailChars(host)
      && |host| >= 3 && '.' in host[1..|host| - 1]
  }

  /** The scan accepts exactly the strings the regular expression matches. */
  lemma ValidEmailMatchesPattern(s: string)
    ensures ValidEmail(s) <==> MatchesEmailPattern(s)
  {
    if ValidEmail(s) {
      ValidEmailMatches(s);
    }
    if MatchesEmailPattern(s) {
      var i, j :| 0 < i && i + 1 < j && j + 1 < |s| && s[i] == '@' && s[j] == '.'
        && AllEmailChars(s[..i]) && AllEmailChars(s[i + 1..j]) && AllEmailChars(s[j + 1..]);
      MatchIsValidEmail(s, i, j);
    }
  }

  lemma ValidEmailMatches(s: string)
    requires ValidEmail(s)
    ensures MatchesEmailPattern(s)
  {
    var i := IndexOf(s, '@').value;
    var host := s[i + 1..];
    var k :| 0 <= k < |host| - 2 && host[1..|host| - 1][k] == '.';
    var j := i + 2 + k;
    assert s[j] == '.';
    assert s[i + 1..j] == host[..k + 1];
    assert s[j + 1..] == host[k + 2..];
  }

  lemma MatchIsValidEmail(s: string, i: nat, j: nat)
    requires 0 < i && i + 1 < j && j + 1 < |s| && s[i] == '@' && s[j] == '.'
    requires AllEmailChars(s[..i]) && AllEmailChars(s[i + 1..j]) && AllEmailChars(s[j + 1..])
    ensures ValidEmail(s)
  {
    FirstAt(s, i);
    var host := s[i + 1..];
    forall m | 0 <= m < |host|
      ensures EmailChar(host[m])
    {
      if i + 1 + m < j {
        assert host[m] == s[i + 1..j][m];
      } else if i + 1 + m > j {
        assert host[m] == s[j + 1..][m - (j - i)];
      }
    }
    assert host[1..|host| - 1][j - i - 2] == '.';
  }

  lemma FirstAt(s: string, i: nat)
    requires i < |s| && s[i] == '@' && AllEmailChars(s[..i])
    ensures IndexOf(s, '@') == Some(i)
  {
  }
}

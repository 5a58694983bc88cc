/** SanitizeName: the function on which broker, operator and proxy must agree, from an email to a resource name. */
module Sanitize {
  import opened Base

  const MAX_NAME: nat := 253

  predicate Alnum(c: char) {
    'a' <= c <= 'z' || '0' <= c <= '9'
  }

  /** What is assumed of strings.ToLower, rune by rune: lower-case ASCII letters, digits and the hyphen stay as they
      are. */
  ghost predicate Lowering(lower: char -> char) {
    forall c | Alnum(c) || c == '-' :: lower(c) == c
  }

  /** The characters a cleaned string is made of. */
  predicate Hyphenated(s: string) {
    forall i | 0 <= i < |s| :: Alnum(s[i]) || s[i] == '-'
  }

  /** The name syntax of section 2.1 of RFC 1123, without dots: letters, digits and inner hyphens. */
  predicate ValidName(s: string) {
    && 1 <= |s| <= MAX_NAME
    && Hyphenated(s)
    && Alnum(s[0]) && Alnum(s[|s| - 1])
  }

  function Clean(lower: char -> char, c: char): char {
    if Alnum(lower(c)) then lower(c) else '-'
  }

  function Cleaned(lower: char -> char, s: string): string {
    seq(|s|, i requires 0 <= i < |s| => Clean(lower, s[i]))
  }

  function TrimLeft(s: string): string {
    if s != "" && s[0] == '-' then TrimLeft(s[1..]) else s
  }

  function TrimRight(s: string): string {
    if s != "" && s[|s| - 1] == '-' then TrimRight(s[..|s| - 1]) else s
  }

  /** strings.Trim(s, "-"). */
  function Trim(s: string): string {
    TrimRight(TrimLeft(s))
  }

  function SanitizeName(lower: char -> char, email: string): string {
    var all := Trim(Cleaned(lower, email));
    var short := if |all| > MAX_NAME then Trim(all[..MAX_NAME]) else all;
    if short == "" then "user" else short
  }

  lemma {:induction false} TrimLeftEnds(s: string)
    requires Hyphenated(s)
    ensures var t := TrimLeft(s); |t| <= |s| && Hyphenated(t) && (t == "" || Alnum(t[0]))
  {
    if s != "" && s[0] == '-' { TrimLeftEnds(s[1..]); }
  }

  lemma {:induction false} TrimRightEnds(s: string)
    requires Hyphenated(s)
    ensures var t := TrimRight(s); t <= s && Hyphenated(t) && (t == "" || Alnum(t[|t| - 1]))
  {
    if s != "" && s[|s| - 1] == '-' { TrimRightEnds(s[..|s| - 1]); }
  }

  lemma TrimEnds(s: string)
    requires Hyphenated(s)
    ensures var t := Trim(s); |t| <= |s| && Hyphenated(t) && (t == "" || (Alnum(t[0]) && Alnum(t[|t| - 1])))
  {
    TrimLeftEnds(s);
    TrimRightEnds(TrimLeft(s));
  }

  /** Every email gives a name that Kubernetes accepts. */
  lemma SanitizedIsValid(lower: char -> char, email: string)
    ensures ValidName(SanitizeName(lower, email))
  {
    var c := Cleaned(lower, email);
    TrimEnds(c);
    var all := Trim(c);
    if |all| > MAX_NAME { TrimEnds(all[..MAX_NAME]); }
  }

  // ----- What the name is -----

  lemma {:induction false} TrimLeftIs(s: string) returns (a: nat)
    ensures a <= |s| && TrimLeft(s) == s[a..] && (forall i | 0 <= i < a :: s[i] == '-') && (a < |s| ==> s[a] != '-')
  {
    a := 0;
    if s != "" && s[0] == '-' {
      var rest := TrimLeftIs(s[1..]);
      a := rest + 1;
    }
  }

  lemma {:induction false} TrimRightIs(s: string) returns (b: nat)
    ensures b <= |s| && TrimRight(s) == s[..b]
    ensures (forall i | b <= i < |s| :: s[i] == '-') && (b > 0 ==> s[b - 1] != '-')
  {
    b := |s|;
    if s != "" && s[|s| - 1] == '-' { b := TrimRightIs(s[..|s| - 1]); }
  }

  /** The email character by character: a lowered letter or digit, or a hyphen. */
  predicate IsCleaned(lower: char -> char, email: string, c: string) {
    && |c| == |email|
    && forall i | 0 <= i < |c| ::
      var l := lower(email[i]);
      if 'a' <= l <= 'z' || '0' <= l <= '9' then c[i] == l else c[i] == '-'
  }

  /** `name` is `c` without the hyphens around it, cut after 253 characters and again without hyphens at the end. */
  predicate IsCut(c: string, name: string, a: nat, b: nat) {
    && a < b <= |c| && name == c[a..b] && b - a <= 253 && c[a] != '-' && c[b - 1] != '-'
    && (forall i | 0 <= i < a :: c[i] == '-') && (forall i | b <= i < |c| && i < a + 253 :: c[i] == '-')
  }

  /** The name of an email is the email with every character lowered, with a hyphen for each that is then no letter or
      digit, without outer hyphens, and cut at 253 characters; and "user" when nothing is left. */
  lemma NameIs(lower: char -> char, email: string) returns (c: string)
    ensures IsCleaned(lower, email, c)
    ensures var name := SanitizeName(lower, email);
      if forall i | 0 <= i < |c| :: c[i] == '-' then name == "user" else exists a, b :: IsCut(c, name, a, b)
  {
    c := Cleaned(lower, email);
    var a := TrimLeftIs(c);
    var e := TrimRightIs(c[a..]);
    var all := Trim(c);
    assert all == c[a..][..e] == c[a..a + e];
    assert forall i | a + e <= i < |c| :: c[i] == c[a..][i - a] == '-';
    if e == 0 {
      assert all == "";
      assert forall i | 0 <= i < |c| :: c[i] == '-';
    } else {
      assert c[a] != '-' && c[a..][e - 1] == c[a + e - 1] != '-';
      if e <= 253 {
        assert SanitizeName(lower, email) == all;
        assert IsCut(c, all, a, a + e);
      } else {
        var b := CutIs(c, a, e, all);
        assert SanitizeName(lower, email) == c[a..b];
        assert IsCut(c, c[a..b], a, b);
      }
    }
  }

  lemma CutIs(c: string, a: nat, e: nat, all: string) returns (b: nat)
    requires 253 < e && a + e <= |c| && all == c[a..a + e] && c[a] != '-' && forall i | 0 <= i < a :: c[i] == '-'
    ensures IsCut(c, Trim(all[..253]), a, b)
  {
    var s := all[..253];
    assert s == c[a..a + 253] && s[0] == c[a];
    assert TrimLeft(s) == s;
    var n := TrimRightIs(s);
    assert forall i | a + n <= i < a + 253 :: c[i] == s[i - a];
    assert n > 0;
    assert s[..n] == c[a..a + n] && s[n - 1] == c[a + n - 1];
    b := a + n;
  }

  /** Valid names, and only those, are left as they are: hence sanitizing twice is sanitizing once. */
  lemma SanitizedAlready(lower: char -> char, name: string)
    requires Lowering(lower)
    ensures SanitizeName(lower, name) == name <==> ValidName(name)
  {
    if ValidName(name) {
      assert Cleaned(lower, name) == name;
    }
    if SanitizeName(lower, name) == name { SanitizedIsValid(lower, name); }
  }

  lemma SanitizeIdempotent(lower: char -> char, email: string)
    requires Lowering(lower)
    ensures SanitizeName(lower, SanitizeName(lower, email)) == SanitizeName(lower, email)
  {
    SanitizedIsValid(lower, email);
    SanitizedAlready(lower, SanitizeName(lower, email));
  }

  /** Different people may share a name, and with it a CR and an account. */
  lemma NotInjective(lower: char -> char)
    requires Lowering(lower) && lower('.') == '.'
    ensures SanitizeName(lower, "a.b") == SanitizeName(lower, "a-b") == "a-b"
  {
    assert Cleaned(lower, "a.b") == "a-b";
    assert Cleaned(lower, "a-b") == "a-b";
  }

  /** The rune loop of the source. */
  method Sanitized(lower: char -> char, email: string) returns (out: string)
    ensures out == SanitizeName(lower, email) && ValidName(out)
  {
    var b := "";
    for i := 0 to |email|
      invariant b == Cleaned(lower, email)[..i]
    {
      var r := lower(email[i]);
      b := b + [if Alnum(r) then r else '-'];
    }
    assert b == Cleaned(lower, email);
    out := Trim(b);
    if |out| > MAX_NAME {
      out := Trim(out[..MAX_NAME]);
    }
    if out == "" {
      out := "user";
    }
    SanitizedIsValid(lower, email);
  }
}

/** The text rules the ledger applies to what workers and people report. */
module Text {
  import opened Common

  const MAX_TEXT_CHARS := 2000

  /** Python's notion of white space, for str.strip. */
  predicate IsSpace(c: char) {
    var n := c as int;
    || 9 <= n <= 13 || 28 <= n <= 32 || n == 133 || n == 160 || n == 0x1680
    || 0x2000 <= n <= 0x200A || n == 0x2028 || n == 0x2029 || n == 0x202F || n == 0x205F || n == 0x3000
  }

  predicate Blank(s: string) {
    forall i :: 0 <= i < |s| ==> IsSpace(s[i])
  }

  function StripLeft(s: string): string {
    if s != "" && IsSpace(s[0]) then StripLeft(s[1..]) else s
  }

  function StripRight(s: string): string {
    if s != "" && IsSpace(s[|s| - 1]) then StripRight(s[..|s| - 1]) else s
  }

  function Cut(s: string): string {
    s[..Min(|s|, MAX_TEXT_CHARS)]
  }

  /** A report line: stripped, cut to the limit, and refused when nothing is left. */
  function Clean(s: string): Option<string> {
    var t := StripRight(StripLeft(s));
    if t == "" then None else Some(Cut(t))
  }

  /** A review line: the cleaned verdict, and behind it whatever notes there are, cut on their own. */
  function ReviewLine(verdict: string, notes: string): Option<string> {
    var word, more := Clean(verdict), StripRight(StripLeft(notes));
    if word.None? then None
    else Some(word.value + if more == "" then "" else ": " + Cut(more))
  }

  lemma {:induction false} StripLeftBlank(s: string)
    ensures StripLeft(s) == "" <==> Blank(s)
    ensures StripLeft(s) != "" ==> !IsSpace(StripLeft(s)[0])
  {
    if s != "" && IsSpace(s[0]) {
      StripLeftBlank(s[1..]);
      if Blank(s[1..]) {
        assert forall i :: 1 <= i < |s| ==> s[i] == s[1..][i - 1];
      }
    }
  }

  lemma {:induction false} StripRightKeepsFirst(s: string)
    requires s != "" && !IsSpace(s[0])
    ensures StripRight(s) != ""
  {
    if IsSpace(s[|s| - 1]) {
      StripRightKeepsFirst(s[..|s| - 1]);
    }
  }

  /** Exactly the blank lines are refused. */
  lemma CleanRefusesBlank(s: string)
    ensures Clean(s).None? <==> Blank(s)
  {
    StripLeftBlank(s);
    if !Blank(s) {
      StripRightKeepsFirst(StripLeft(s));
    }
  }

  lemma {:induction false} LeftEnd(s: string) returns (i: nat)
    requires !Blank(s)
    ensures i < |s| && Blank(s[..i]) && !IsSpace(s[i]) && StripLeft(s) == s[i..]
  {
    if IsSpace(s[0]) {
      assert !Blank(s[1..]) by {
        assert forall k :: 0 < k < |s| ==> s[k] == s[1..][k - 1];
      }
      var k := LeftEnd(s[1..]);
      i := k + 1;
      assert s[i..] == s[1..][k..];
      forall j | 0 <= j < i ensures IsSpace(s[..i][j]) {
        if j > 0 {
          assert s[..i][j] == s[1..][..k][j - 1];
        }
      }
    } else {
      i := 0;
    }
  }

  lemma {:induction false} RightEnd(s: string) returns (j: nat)
    requires s != "" && !IsSpace(s[0])
    ensures 0 < j <= |s| && Blank(s[j..]) && !IsSpace(s[j - 1]) && StripRight(s) == s[..j]
  {
    var n := |s| - 1;
    if IsSpace(s[n]) {
      j := RightEnd(s[..n]);
      assert s[..n][..j] == s[..j];
      forall k | j <= k < |s| ensures IsSpace(s[k]) {
        if k < n {
          assert s[k] == s[..n][j..][k - j];
        }
      }
    } else {
      j := |s|;
    }
  }

  /** What is kept of a text: everything from its first to its last letter, up to the limit. */
  lemma CleanKeeps(s: string) returns (i: nat, j: nat)
    requires !Blank(s)
    ensures i < j <= |s| && Blank(s[..i]) && Blank(s[j..]) && !IsSpace(s[i]) && !IsSpace(s[j - 1])
    ensures Clean(s) == Some(s[i..Min(j, i + 2000)])
  {
    i := LeftEnd(s);
    var t := s[i..];
    var k := RightEnd(t);
    j := i + k;
    assert t[..k] == s[i..j] && t[k..] == s[j..];
    assert t[k - 1] == s[j - 1] && s[i..j][..Min(j - i, 2000)] == s[i..Min(j, i + 2000)];
  }

  lemma EndsCount(s: string)
    requires s != "" && !IsSpace(s[0]) && !IsSpace(s[|s| - 1])
    ensures forall i :: 0 < i <= |s| ==> !Blank(s[..i])
    ensures forall j :: 0 <= j < |s| ==> !Blank(s[j..])
  {
    forall i | 0 < i <= |s| ensures !Blank(s[..i]) {
      assert s[..i][0] == s[0];
    }
    forall j | 0 <= j < |s| ensures !Blank(s[j..]) {
      assert s[j..][|s| - 1 - j] == s[|s| - 1];
    }
  }

  /** A text of at most 2000 characters without white space at its ends is itself. */
  lemma PlainIsKept(s: string)
    requires 0 < |s| <= 2000 && !IsSpace(s[0]) && !IsSpace(s[|s| - 1])
    ensures Clean(s) == Some(s)
  {
    EndsCount(s);
    assert s[..|s|] == s;
    var i, j := CleanKeeps(s);
    assert s[0..|s|] == s;
  }

  /** A review line is the cleaned verdict, with the cleaned notes behind it when there are any. */
  lemma ReviewLineReads(verdict: string, notes: string)
    ensures Clean(verdict).None? <==> Blank(verdict)
    ensures Clean(notes).None? <==> Blank(notes)
    ensures ReviewLine(verdict, notes) ==
      if Blank(verdict) then None
      else Some(Clean(verdict).value + if Blank(notes) then "" else ": " + Clean(notes).value)
  {
    CleanRefusesBlank(verdict);
    CleanRefusesBlank(notes);
  }

  // -- attempt identities ----------------------------------------------------------

  function Digit(n: nat): char
    requires n < 10
  {
    (48 + n) as char
  }

  function Decimal(n: nat): (s: string)
    ensures s != "" && forall i :: 0 <= i < |s| ==> '0' <= s[i] <= '9'
  {
    if n < 10 then [Digit(n)] else Decimal(n / 10) + [Digit(n % 10)]
  }

  function DigitsValue(s: string): int {
    if s == "" then 0 else 10 * DigitsValue(s[..|s| - 1]) + (s[|s| - 1] as int - 48)
  }

  /** The decimal form reads back as its number. */
  lemma {:induction false} DecimalReads(n: nat)
    ensures DigitsValue(Decimal(n)) == n
  {
    if n >= 10 {
      DecimalReads(n / 10);
      assert Decimal(n)[..|Decimal(n)| - 1] == Decimal(n / 10);
    } else {
      assert Decimal(n)[..0] == "";
    }
  }

  lemma {:induction false} DecimalInjective(a: nat, b: nat)
    requires Decimal(a) == Decimal(b)
    ensures a == b
  {
    DecimalReads(a);
    DecimalReads(b);
  }

  function AttemptId(build: string, task: Id, number: nat): string {
    build + ":" + task.name + ":" + Decimal(number)
  }

  lemma {:induction false} FirstColon(x: string, rest: string)
    requires ':' !in x
    ensures IndexOf(x + ":" + rest, ':') == |x|
  {
    var s := x + ":" + rest;
    assert s[|x|] == ':' && forall i :: 0 <= i < |x| ==> s[i] == x[i];
    assert s[..|x|] == x;
  }

  /** Within one build no two attempts share an identity: task ids never contain a colon. */
  lemma AttemptIdInjective(build: string, t: Id, m: nat, u: Id, n: nat)
    requires ':' !in t.name && ':' !in u.name
    requires AttemptId(build, t, m) == AttemptId(build, u, n)
    ensures t == u && m == n
  {
    var a, b := AttemptId(build, t, m), AttemptId(build, u, n);
    var start := |build| + 1;
    var s, w := t.name + ":" + Decimal(m), u.name + ":" + Decimal(n);
    assert a == (build + ":") + s && b == (build + ":") + w;
    assert a[start..] == s && b[start..] == w;
    FirstColon(t.name, Decimal(m));
    FirstColon(u.name, Decimal(n));
    assert s[..|t.name|] == t.name && w[..|t.name|] == u.name;
    assert s[|t.name| + 1..] == Decimal(m) && w[|t.name| + 1..] == Decimal(n);
    DecimalInjective(m, n);
  }
}

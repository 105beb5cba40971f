/** The names of stored messages: `fmt.Sprintf("%v/%v-%v", dir, pid, count)` (broker/message.go:169). */
module Names {

  function DigitChar(d: int): char
    requires 0 <= d < 10
  {
    ('0' as int + d) as char
  }

  function Decimal(n: nat): (s: string)
    ensures |s| > 0 && forall i :: 0 <= i < |s| ==> '0' <= s[i] <= '9'
  {
    if n < 10 then [DigitChar(n)] else Decimal(n / 10) + [DigitChar(n % 10)]
  }

  function Value(s: string): int {
    if s == "" then 0 else Value(s[..|s| - 1]) * 10 + (s[|s| - 1] as int - '0' as int)
  }

  lemma {:induction false} ValueOfDecimal(n: nat)
    ensures Value(Decimal(n)) == n
  {
    var s := Decimal(n);
    if n < 10 {
      assert s[..0] == "";
    } else {
      ValueOfDecimal(n / 10);
      assert s[..|s| - 1] == Decimal(n / 10);
    }
  }

  function Name(dir: string, pid: nat, count: nat): string {
    dir + "/" + (Decimal(pid) + "-" + Decimal(count))
  }

  lemma SplitAtDash(a: string, b: string, c: string, d: string)
    requires forall i :: 0 <= i < |a| ==> a[i] != '-'
    requires forall i :: 0 <= i < |c| ==> c[i] != '-'
    requires a + "-" + b == c + "-" + d
    ensures a == c && b == d
  {
    var s := a + "-" + b;
    assert s[|a|] == '-' && s[|c|] == '-';
    assert forall i :: 0 <= i < |a| ==> s[i] == a[i];
    assert forall i :: 0 <= i < |c| ==> s[i] == c[i];
    assert |a| == |c|;
    assert a == s[..|a|] && c == s[..|c|];
    assert b == s[|a| + 1..] && d == s[|c| + 1..];
  }

  /** A name is a path in the directory, and reads back: digits of the process id, a dash, digits of
      the count, most significant first. */
  lemma NameReads(dir: string, pid: nat, count: nat)
    ensures var name := Name(dir, pid, count);
            exists a: string, b: string ::
              && name == dir + "/" + a + "-" + b
              && Value(a) == pid && Value(b) == count
              && (forall i :: 0 <= i < |a| ==> '0' <= a[i] <= '9') && (forall i :: 0 <= i < |b| ==> '0' <= b[i] <= '9')
  {
    ValueOfDecimal(pid);
    ValueOfDecimal(count);
    var a, b := Decimal(pid), Decimal(count);
    assert Name(dir, pid, count) == dir + "/" + a + "-" + b;
    hide Decimal, Value, Name;
  }

  /** Two names are equal only for the same process and the same count. */
  lemma NameInjective(dir: string, pid1: nat, count1: nat, pid2: nat, count2: nat)
    requires Name(dir, pid1, count1) == Name(dir, pid2, count2)
    ensures pid1 == pid2 && count1 == count2
  {
    var t1, t2 := Decimal(pid1) + "-" + Decimal(count1), Decimal(pid2) + "-" + Decimal(count2);
    assert t1 == Name(dir, pid1, count1)[|dir| + 1..] && t2 == Name(dir, pid2, count2)[|dir| + 1..];
    SplitAtDash(Decimal(pid1), Decimal(count1), Decimal(pid2), Decimal(count2));
    ValueOfDecimal(pid1);
    ValueOfDecimal(pid2);
    ValueOfDecimal(count1);
    ValueOfDecimal(count2);
  }
}

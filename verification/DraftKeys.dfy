/** The execution key `task-draft:<draft id>:<item index>` (application/task_drafts.py). */
module DraftKeys {

  function Digit(n: nat): char
    requires n < 10
  {
    "0123456789"[n]
  }

  predicate IsDigit(c: char) { '0' <= c <= '9' }

  function Decimal(n: nat): string {
    if n < 10 then [Digit(n)] else Decimal(n / 10) + [Digit(n % 10)]
  }

  function DraftKey(draft: string, index: nat): string {
    "task-draft:" + draft + ":" + Decimal(index)
  }

  /** The number that digits stand for. */
  ghost function ValueOf(digits: string): int {
    if digits == "" then 0
    else ValueOf(digits[..|digits| - 1]) * 10 + (digits[|digits| - 1] as int - '0' as int)
  }

  ghost predicate IsDecimal(digits: string, n: nat) {
    && digits != "" && (forall k :: 0 <= k < |digits| ==> IsDigit(digits[k]))
    && (digits[0] == '0' ==> digits == "0")
    && ValueOf(digits) == n
  }

  lemma {:induction false} DecimalTells(n: nat)
    ensures IsDecimal(Decimal(n), n)
    decreases n
  {
    hide IsDecimal;
    OneMoreDigit("", 0, n % 10);
    if n >= 10 {
      DecimalTells(n / 10);
      OneMoreDigit(Decimal(n / 10), n / 10, n % 10);
    } else {
      assert Decimal(n) == "" + [Digit(n % 10)];
    }
  }

  lemma OneMoreDigit(s: string, n: nat, d: nat)
    requires if n == 0 then s == "" else IsDecimal(s, n)
    requires d < 10
    ensures IsDecimal(s + [Digit(d)], n * 10 + d)
  {
    var t := s + [Digit(d)];
    assert t[..|t| - 1] == s;
    assert ValueOf(t) == ValueOf(s) * 10 + d;
  }

  /** A key names its draft, and its item by decimal digits. */
  lemma DraftKeyTells(d: string, i: nat)
    ensures exists digits :: IsDecimal(digits, i) && DraftKey(d, i) == "task-draft:" + d + ":" + digits
  {
    DecimalTells(i);
  }

  /** Distinct items of any drafts, whatever their ids, have distinct keys. */
  lemma DraftKeyInjective(d: string, i: nat, e: string, j: nat)
    requires DraftKey(d, i) == DraftKey(e, j)
    ensures d == e && i == j
  {
    var s, a, b := DraftKey(d, i), Decimal(i), Decimal(j);
    DecimalTells(i);
    DecimalTells(j);
    hide Decimal, ValueOf;
    assert s[|s| - |a| - 1] == ':' && s[|s| - |a|..] == a;
    assert s[|s| - |b| - 1] == ':' && s[|s| - |b|..] == b;
    assert s[11..|s| - |a| - 1] == d && s[11..|s| - |b| - 1] == e;
  }
}

/** Zero-padded decimal file names and the order in which a sorted listing puts them. */
module CheckpointNames {
  import opened StringOrder

  const WIDTH: nat := 20

  function Pow10(k: nat): (p: nat)
    ensures p >= 1
  {
    if k == 0 then 1 else 10 * Pow10(k - 1)
  }

  function Digit(d: nat): char
    requires d < 10
  {
    ('0' as int + d) as char
  }

  function Zeros(k: nat): (s: string)
    ensures |s| == k
  {
    if k == 0 then "" else Zeros(k - 1) + "0"
  }

  function Less1(w: nat): nat { if w == 0 then 0 else w - 1 }

  /** Decimal digits, padded with zeros on the left up to `w` places. */
  function Padded(n: nat, w: nat): string
    decreases n
  {
    if n < 10 then Zeros(Less1(w)) + [Digit(n)] else Padded(n / 10, Less1(w)) + [Digit(n % 10)]
  }

  function Name(n: nat, w: nat): string { "checkpoint-" + (Padded(n, w) + ".json") }

  function FileName(n: nat): string { Name(n, WIDTH) }

  lemma {:induction false} ZeroPadded(w: nat)
    requires w >= 1
    ensures Padded(0, w) == Zeros(w)
  {
  }

  lemma {:induction false} PaddedLength(n: nat, w: nat)
    requires w >= 1 && n < Pow10(w)
    ensures |Padded(n, w)| == w
    decreases n
  {
    if n >= 10 {
      assert Pow10(1) == 10 * Pow10(0) == 10;
      assert n / 10 < Pow10(w - 1);
      PaddedLength(n / 10, w - 1);
    }
  }

  lemma {:induction false} LessByPrefix(p: string, q: string, x: string, y: string)
    requires |p| == |q| && Less(p, q)
    ensures Less(p + x, q + y)
  {
    assert (p + x)[0] == p[0] && (q + y)[0] == q[0];
    if p[0] == q[0] {
      assert (p + x)[1..] == p[1..] + x && (q + y)[1..] == q[1..] + y;
      LessByPrefix(p[1..], q[1..], x, y);
    }
  }

  /** At a fixed width, numeric order is listing order. */
  lemma {:induction false} PaddedOrder(n: nat, m: nat, w: nat)
    requires w >= 1 && n < m < Pow10(w)
    ensures Less(Padded(n, w), Padded(m, w))
    decreases m
  {
    var a, b := [Digit(n % 10)], [Digit(m % 10)];
    if m < 10 {
      LessAfterPrefix(Zeros(w - 1), a, b);
    } else {
      PaddedSplit(n, m, w);
      if n / 10 < m / 10 {
        PaddedOrder(n / 10, m / 10, w - 1);
        PaddedLength(n / 10, w - 1);
        PaddedLength(m / 10, w - 1);
        LessByPrefix(Padded(n / 10, w - 1), Padded(m / 10, w - 1), a, b);
      } else {
        LessAfterPrefix(Padded(n / 10, w - 1), a, b);
      }
    }
  }

  lemma PaddedSplit(n: nat, m: nat, w: nat)
    requires w >= 1 && n < m < Pow10(w) && m >= 10
    ensures w >= 2 && m / 10 < Pow10(w - 1) && n / 10 <= m / 10
    ensures Padded(n, w) == Padded(n / 10, w - 1) + [Digit(n % 10)]
    ensures Padded(m, w) == Padded(m / 10, w - 1) + [Digit(m % 10)]
    ensures n / 10 == m / 10 ==> n % 10 < m % 10
  {
    assert Pow10(1) == 10 * Pow10(0) == 10;
    if n < 10 { ZeroPadded(w - 1); }
  }

  lemma NameOrder(n: nat, m: nat, w: nat)
    requires w >= 1 && n < m < Pow10(w)
    ensures Less(Name(n, w), Name(m, w)) && Name(n, w) != Name(m, w)
  {
    PaddedOrder(n, m, w);
    PaddedLength(n, w);
    PaddedLength(m, w);
    LessByPrefix(Padded(n, w), Padded(m, w), ".json", ".json");
    LessAfterPrefix("checkpoint-", Padded(n, w) + ".json", Padded(m, w) + ".json");
    LessAsymmetric(Name(n, w), Name(m, w));
  }

  /** Below 10^20 the listing order of file names is the order of their sequences. */
  lemma FileNameOrder(n: nat, m: nat)
    requires n < m < Pow10(WIDTH)
    ensures Less(FileName(n), FileName(m)) && FileName(n) != FileName(m)
  {
    NameOrder(n, m, WIDTH);
  }

  // ----- where the order breaks

  lemma {:induction false} PowerStartsWithOne(k: nat, w: nat)
    requires k >= w && k >= 1
    ensures Padded(Pow10(k), w)[0] == '1'
    decreases k
  {
    assert Pow10(k) / 10 == Pow10(k - 1) && Pow10(k) >= 10;
    if k == 1 {
      assert Padded(1, 0) == Zeros(0) + [Digit(1)];
    } else {
      PowerStartsWithOne(k - 1, Less1(w));
    }
  }

  lemma {:induction false} NinesStartWithNine(k: nat)
    requires k >= 1
    ensures Padded(Pow10(k) - 1, k)[0] == '9'
    decreases k
  {
    if k == 1 {
      assert Pow10(1) == 10 * Pow10(0) == 10;
    } else {
      var n := Pow10(k) - 1;
      assert n == 10 * (Pow10(k - 1) - 1) + 9;
      assert n / 10 == Pow10(k - 1) - 1;
      assert Pow10(k - 1) == 10 * Pow10(k - 2);
      NinesStartWithNine(k - 1);
    }
  }

  lemma NameOrderBreaks(w: nat)
    requires w >= 1
    ensures Less(Name(Pow10(w), w), Name(Pow10(w) - 1, w))
    ensures Name(Pow10(w), w) != Name(Pow10(w) - 1, w)
  {
    PowerStartsWithOne(w, w);
    NinesStartWithNine(w);
    var a, b := Padded(Pow10(w), w) + ".json", Padded(Pow10(w) - 1, w) + ".json";
    assert a[0] == '1' && b[0] == '9';
    LessAfterPrefix("checkpoint-", a, b);
    LessAsymmetric("checkpoint-" + a, "checkpoint-" + b);
  }

  /** The file for 10^20 sorts before the file for 10^20 - 1. */
  lemma OrderBreaksAtLimit()
    ensures Less(FileName(Pow10(WIDTH)), FileName(Pow10(WIDTH) - 1))
    ensures FileName(Pow10(WIDTH)) != FileName(Pow10(WIDTH) - 1)
  {
    NameOrderBreaks(WIDTH);
  }

  /** Up to and including 10^20, the file for 10^20 - 1 is the last of the listing. */
  lemma LastBeforeLimit(n: nat, last: nat)
    requires last + 1 == Pow10(WIDTH) && n <= last + 1 && n != last
    ensures Less(FileName(n), FileName(last))
  {
    if n < last {
      FileNameOrder(n, last);
    } else {
      OrderBreaksAtLimit();
    }
  }
}

/**
 Snapshot names: `SnapshotPath` of internal/btrfs/btrfs.go.

 A snapshot lives in the `.snapshots` directory of its subvolume under a name that ends in the civil
 time of its creation, to the second. `dir` below is that directory as `filepath.Join` cleans it;
 for names without a slash the rest of the path is the name exactly as printed here.
 */
module SnapshotNames {

  datatype Civil = Civil(year: int, month: int, day: int, hour: int, minute: int, second: int)

  /** Civil times with a year of four digits. */
  predicate Printable(t: Civil) {
    && 0 <= t.year <= 9999 && 1 <= t.month <= 12 && 1 <= t.day <= 31
    && 0 <= t.hour <= 23 && 0 <= t.minute <= 59 && 0 <= t.second <= 59
  }

  predicate Earlier(a: Civil, b: Civil) {
    || a.year < b.year
    || (a.year == b.year && a.month < b.month)
    || (a.year == b.year && a.month == b.month && a.day < b.day)
    || (a.year == b.year && a.month == b.month && a.day == b.day && EarlierInDay(a, b))
  }

  predicate EarlierInDay(a: Civil, b: Civil) {
    || a.hour < b.hour
    || (a.hour == b.hour && a.minute < b.minute)
    || (a.hour == b.hour && a.minute == b.minute && a.second < b.second)
  }

  // ---------- Printing ----------

  function Digit(d: int): char
    requires 0 <= d <= 9
  {
    '0' + d as char
  }

  /** The last `width` decimal digits of `n`, with leading zeros. */
  function Pad(n: nat, width: nat): (s: string)
    ensures |s| == width
  {
    if width == 0 then "" else Pad(n / 10, width - 1) + [Digit(n % 10)]
  }

  /** Go's layout "20060102_150405". */
  function Stamp(t: Civil): (s: string)
    requires Printable(t)
    ensures |s| == 15
  {
    Pad(t.year, 4) + (Pad(t.month, 2) + (Pad(t.day, 2) + ("_" +
    (Pad(t.hour, 2) + (Pad(t.minute, 2) + Pad(t.second, 2))))))
  }

  function SnapshotPath(dir: string, name: string, t: Civil): string
    requires Printable(t) && '/' !in name
  {
    if name != "" then dir + "/" + name + "_" + Stamp(t) else dir + "/" + Stamp(t)
  }

  // ---------- Order ----------

  /** The order in which strings sort. */
  predicate Before(a: string, b: string)
    decreases |b|
  {
    if b == [] then false
    else if a == [] then true
    else a[0] < b[0] || (a[0] == b[0] && Before(a[1..], b[1..]))
  }

  /** Strings that begin with blocks of equal length sort by the blocks first. */
  lemma {:induction false} BeforeByBlocks(x: string, y: string, x': string, y': string)
    requires |x| == |x'|
    ensures Before(x + y, x' + y') <==> Before(x, x') || (x == x' && Before(y, y'))
  {
    if x == [] {
      assert x + y == y && x' + y' == y';
    } else {
      BeforeByBlocks(x[1..], y, x'[1..], y');
      assert (x + y)[1..] == x[1..] + y && (x' + y')[1..] == x'[1..] + y';
      assert x == [x[0]] + x[1..] && x' == [x'[0]] + x'[1..];
    }
  }

  function Pow10(width: nat): (p: nat)
    ensures p >= 1
  {
    if width == 0 then 1 else 10 * Pow10(width - 1)
  }

  /** Padded numbers sort, and differ, as numbers do. */
  lemma {:induction false} PadOrder(n: nat, m: nat, width: nat)
    requires n < Pow10(width) && m < Pow10(width)
    ensures Before(Pad(n, width), Pad(m, width)) <==> n < m
    ensures Pad(n, width) == Pad(m, width) <==> n == m
  {
    if width > 0 {
      PadOrder(n / 10, m / 10, width - 1);
      var a, b := [Digit(n % 10)], [Digit(m % 10)];
      BeforeByBlocks(Pad(n / 10, width - 1), a, Pad(m / 10, width - 1), b);
      assert Before(a, b) <==> n % 10 < m % 10 by {
        assert a[1..] == [] && b[1..] == [];
      }
      assert n == 10 * (n / 10) + n % 10 && m == 10 * (m / 10) + m % 10;
      assert Pad(n, width)[..width - 1] == Pad(n / 10, width - 1) && Pad(n, width)[width - 1] == Digit(n % 10);
      assert Pad(m, width)[..width - 1] == Pad(m / 10, width - 1) && Pad(m, width)[width - 1] == Digit(m % 10);
    }
  }

  lemma PadFirst(n: nat, m: nat, width: nat, rest: string, rest': string)
    requires n < Pow10(width) && m < Pow10(width)
    ensures Before(Pad(n, width) + rest, Pad(m, width) + rest') <==> n < m || (n == m && Before(rest, rest'))
  {
    PadOrder(n, m, width);
    BeforeByBlocks(Pad(n, width), rest, Pad(m, width), rest');
  }

  function Clock(t: Civil): string
    requires Printable(t)
  {
    Pad(t.hour, 2) + (Pad(t.minute, 2) + Pad(t.second, 2))
  }

  lemma ClockOrder(a: Civil, b: Civil)
    requires Printable(a) && Printable(b)
    ensures Before(Clock(a), Clock(b)) <==> EarlierInDay(a, b)
  {
    assert Pow10(2) == 100;
    PadFirst(a.hour, b.hour, 2, Pad(a.minute, 2) + Pad(a.second, 2), Pad(b.minute, 2) + Pad(b.second, 2));
    PadFirst(a.minute, b.minute, 2, Pad(a.second, 2), Pad(b.second, 2));
    PadOrder(a.second, b.second, 2);
  }

  lemma StampOrder(a: Civil, b: Civil)
    requires Printable(a) && Printable(b)
    ensures Before(Stamp(a), Stamp(b)) <==> Earlier(a, b)
  {
    assert Pow10(2) == 100 && Pow10(4) == 100 * Pow10(2);
    var c, c' := "_" + Clock(a), "_" + Clock(b);
    ClockOrder(a, b);
    BeforeByBlocks("_", Clock(a), "_", Clock(b));
    assert !Before("_", "_");
    var d, d' := Pad(a.day, 2) + c, Pad(b.day, 2) + c';
    PadFirst(a.day, b.day, 2, c, c');
    PadFirst(a.month, b.month, 2, d, d');
    PadFirst(a.year, b.year, 4, Pad(a.month, 2) + d, Pad(b.month, 2) + d');
  }

  lemma NotBeforeItself(a: string)
    ensures !Before(a, a)
  {
  }

  /** For one name, snapshots sort by path in the order of their civil times. */
  lemma PathOrder(dir: string, name: string, a: Civil, b: Civil)
    requires Printable(a) && Printable(b) && '/' !in name
    ensures Before(SnapshotPath(dir, name, a), SnapshotPath(dir, name, b)) <==> Earlier(a, b)
  {
    var prefix := if name != "" then dir + "/" + name + "_" else dir + "/";
    StampOrder(a, b);
    NotBeforeItself(prefix);
    BeforeByBlocks(prefix, Stamp(a), prefix, Stamp(b));
  }

  /** Two paths in one directory coincide exactly when name and second do: the empty name collides with no other. */
  lemma PathIsUnique(dir: string, name: string, name': string, a: Civil, b: Civil)
    requires Printable(a) && Printable(b) && '/' !in name && '/' !in name'
    ensures SnapshotPath(dir, name, a) == SnapshotPath(dir, name', b) <==> name == name' && a == b
  {
    var p, q := SnapshotPath(dir, name, a), SnapshotPath(dir, name', b);
    if p == q {
      assert p[|p| - 15..] == Stamp(a) && q[|q| - 15..] == Stamp(b);
      StampOrder(a, b);
      StampOrder(b, a);
      NotBeforeItself(Stamp(a));
      var x := if name != "" then name + "_" else "";
      var y := if name' != "" then name' + "_" else "";
      assert p == (dir + "/") + x + Stamp(a) && q == (dir + "/") + y + Stamp(b);
      assert x == p[|dir| + 1..|p| - 15] && y == q[|dir| + 1..|q| - 15];
      assert name == (if x == "" then x else x[..|x| - 1]);
      assert name' == (if y == "" then y else y[..|y| - 1]);
    }
  }

  // ---------- Reading a name back ----------

  /** The number that decimal digits write. */
  function NumberOf(digits: string): int {
    if digits == "" then 0
    else NumberOf(digits[..|digits| - 1]) * 10 + (digits[|digits| - 1] as int - '0' as int)
  }

  lemma {:induction false} PadReads(n: nat, width: nat)
    requires n < Pow10(width)
    ensures NumberOf(Pad(n, width)) == n
    ensures forall c :: c in Pad(n, width) ==> '0' <= c <= '9'
  {
    if width > 0 {
      PadReads(n / 10, width - 1);
      var s := Pad(n, width);
      assert s[..width - 1] == Pad(n / 10, width - 1) && s[width - 1] == Digit(n % 10);
    }
  }

  /** The time that year, month and day digits, an underscore, and hour, minute and second digits write. */
  function ReadStamp(s: string): Civil
    requires |s| == 15
  {
    Civil(NumberOf(s[..4]), NumberOf(s[4..6]), NumberOf(s[6..8]),
          NumberOf(s[9..11]), NumberOf(s[11..13]), NumberOf(s[13..]))
  }

  lemma StampReads(t: Civil)
    requires Printable(t)
    ensures ReadStamp(Stamp(t)) == t && Stamp(t)[8] == '_'
  {
    assert Pow10(2) == 100 && Pow10(4) == 100 * Pow10(2);
    var s := Stamp(t);
    assert s[..4] == Pad(t.year, 4) && s[4..6] == Pad(t.month, 2) && s[6..8] == Pad(t.day, 2);
    assert s[9..11] == Pad(t.hour, 2) && s[11..13] == Pad(t.minute, 2) && s[13..] == Pad(t.second, 2);
    PadReads(t.year, 4);
    PadReads(t.month, 2);
    PadReads(t.day, 2);
    PadReads(t.hour, 2);
    PadReads(t.minute, 2);
    PadReads(t.second, 2);
  }

  /** A path is the directory, the name when there is one, and a stamp that reads as the time it was made at. */
  lemma PathReads(dir: string, name: string, t: Civil)
    requires Printable(t) && '/' !in name
    ensures var p := SnapshotPath(dir, name, t);
            && |p| >= 15 && p[..|p| - 15] == dir + "/" + (if name == "" then "" else name + "_")
            && ReadStamp(p[|p| - 15..]) == t && p[|p| - 7] == '_'
  {
    var p, head := SnapshotPath(dir, name, t), dir + "/" + (if name == "" then "" else name + "_");
    StampReads(t);
    assert p == head + Stamp(t);
    assert p[|p| - 15..] == Stamp(t) && p[..|p| - 15] == head;
  }

  lemma PadOfTwo(n: nat)
    requires n <= 99
    ensures Pad(n, 2) == ['0' + (n / 10) as char, '0' + (n % 10) as char]
  {
    assert Pad(n, 2) == Pad(n / 10, 1) + [Digit(n % 10)];
    assert Pad(n / 10, 1) == Pad(n / 100, 0) + [Digit((n / 10) % 10)];
  }

  /** In digits: the fifth of January 2024, nine seconds past seven minutes past three. */
  lemma StampExample()
    ensures Stamp(Civil(2024, 1, 5, 3, 7, 9)) == "2024" + ("01" + ("05" + ("_" + ("03" + ("07" + "09")))))
  {
    PadOfTwo(20);
    assert Pad(2024, 4) == Pad(202, 3) + ['4'] && Pad(202, 3) == Pad(20, 2) + ['2'];
    PadOfTwo(1);
    PadOfTwo(5);
    PadOfTwo(3);
    PadOfTwo(7);
    PadOfTwo(9);
    assert Pad(2024, 4) == "2024" && Pad(1, 2) == "01" && Pad(5, 2) == "05";
    assert Pad(3, 2) == "03" && Pad(7, 2) == "07" && Pad(9, 2) == "09";
  }
}

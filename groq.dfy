/**
 * The GROQ text fragments the builder appends, one per operation, with
 * readers that recover the arguments from the fragments whose arguments
 * can be recovered.
 */
module Groq {
  import opened Wrappers
  import opened Decimal

  /** Narrowing into a field: `.name`. */
  function FieldFragment(name: string): string {
    "." + name
  }

  /** A filter with caller-supplied predicate text: `[v]`. */
  function FilterFragment(filterValue: string): string {
    "[" + filterValue + "]"
  }

  /** Dereferencing a reference: `->`. */
  const DerefFragment: string := "->"

  /** `[min]` when no upper bound is passed, `[min..max]` when one is. */
  function SliceFragment(min: int, max: Option<int>): string {
    "[" + IntToText(min) + (if max.Some? then ".." + IntToText(max.value) else "") + "]"
  }

  /** The only two directions the ordering type admits. */
  datatype Direction = Asc | Desc

  /** An ordering of the template type `${string} ${"asc" | "desc"}`. */
  datatype Ordering = Ordering(expr: string, dir: Direction)

  function DirectionText(d: Direction): string {
    match d
    case Asc => "asc"
    case Desc => "desc"
  }

  function OrderingText(o: Ordering): string {
    o.expr + " " + DirectionText(o.dir)
  }

  function OrderingTexts(os: seq<Ordering>): (ts: seq<string>)
    ensures |ts| == |os|
    ensures forall i :: 0 <= i < |os| ==> ts[i] == OrderingText(os[i])
  {
    if os == [] then [] else [OrderingText(os[0])] + OrderingTexts(os[1..])
  }

  /** Array.prototype.join: the elements with `sep` between neighbours. */
  function Join(xs: seq<string>, sep: string): string {
    if |xs| == 0 then "" else if |xs| == 1 then xs[0] else xs[0] + sep + Join(xs[1..], sep)
  }

  /** `|order(o1, o2, ...)`. */
  function OrderFragment(os: seq<Ordering>): string {
    "|order(" + Join(OrderingTexts(os), ", ") + ")"
  }

  /** Ordering by a single key renders just that key. */
  lemma OrderFragmentSingle(o: Ordering)
    ensures OrderFragment([o]) == "|order(" + OrderingText(o) + ")"
  {
    assert OrderingTexts([o]) == [OrderingText(o)];
  }

  /**
   * The order fragment has no reader: an expression that itself contains
   * `", "` renders exactly like two orderings.
   */
  lemma OrderFragmentAmbiguous()
    ensures OrderFragment([Ordering("a asc, b", Asc)])
         == OrderFragment([Ordering("a", Asc), Ordering("b", Asc)])
  {
    var one, two := Ordering("a asc, b", Asc), [Ordering("a", Asc), Ordering("b", Asc)];
    assert OrderingText(one) == "a asc, b asc";
    assert OrderingText(two[0]) == "a asc" && OrderingText(two[1]) == "b asc";
    assert OrderingTexts([one]) == ["a asc, b asc"];
    assert OrderingTexts(two) == ["a asc", "b asc"];
    assert Join(["a asc", "b asc"], ", ") == "a asc" + ", " + "b asc";
  }

  /** Joining one more element appends the separator and that element. */
  lemma {:induction false} JoinSnoc(xs: seq<string>, y: string, sep: string)
    requires |xs| >= 1
    ensures Join(xs + [y], sep) == Join(xs, sep) + sep + y
  {
    if |xs| > 1 {
      assert (xs + [y])[1..] == xs[1..] + [y];
      JoinSnoc(xs[1..], y, sep);
    }
  }

  function SumLengths(xs: seq<string>): nat {
    if xs == [] then 0 else |xs[0]| + SumLengths(xs[1..])
  }

  /** The joined text is as long as the elements plus one separator per neighbouring pair. */
  lemma {:induction false} JoinLength(xs: seq<string>, sep: string)
    requires |xs| >= 1
    ensures |Join(xs, sep)| == SumLengths(xs) + (|xs| - 1) * |sep|
  {
    if |xs| > 1 {
      JoinLength(xs[1..], sep);
    }
  }

  /** Reads an ordering back by its direction suffix. */
  function ParseOrdering(s: string): Option<Ordering> {
    if |s| >= 4 && s[|s| - 4..] == " asc" then Some(Ordering(s[..|s| - 4], Asc))
    else if |s| >= 5 && s[|s| - 5..] == " desc" then Some(Ordering(s[..|s| - 5], Desc))
    else None
  }

  lemma OrderingRoundTrip(o: Ordering)
    ensures ParseOrdering(OrderingText(o)) == Some(o)
  {
    var s := OrderingText(o);
    match o.dir
    case Asc =>
      assert s[|s| - 4..] == " asc";
      assert s[..|s| - 4] == o.expr;
    case Desc =>
      assert s[|s| - 4..] == "desc";
      assert s[|s| - 5..] == " desc";
      assert s[..|s| - 5] == o.expr;
  }

  /** Position of the first '.' in s, or |s| when there is none. */
  function IndexOfDot(s: string): (i: nat)
    ensures i <= |s|
    ensures forall j :: 0 <= j < i ==> s[j] != '.'
    ensures i < |s| ==> s[i] == '.'
  {
    if s == [] then 0 else if s[0] == '.' then 0 else 1 + IndexOfDot(s[1..])
  }

  /** Reads `[min]` or `[min..max]` back into the arguments of slice. */
  function ParseSlice(s: string): Option<(int, Option<int>)> {
    if |s| < 2 || s[0] != '[' || s[|s| - 1] != ']' then None
    else ParseBounds(s[1..|s| - 1])
  }

  /** The text between the brackets: an integer, optionally followed by `..` and another. */
  function ParseBounds(inner: string): Option<(int, Option<int>)> {
    var d := IndexOfDot(inner);
    match ParseInt(inner[..d])
    case None => None
    case Some(lo) =>
      if d == |inner| then Some((lo, None))
      else match ParseUpper(inner[d..])
        case None => None
        case Some(hi) => Some((lo, Some(hi)))
  }

  /** `..max` read back into max. */
  function ParseUpper(rest: string): Option<int> {
    if |rest| >= 2 && rest[..2] == ".." then ParseInt(rest[2..]) else None
  }

  /** An integer's text holds no '.', so the first '.' after it is the one that follows it. */
  lemma DotAfterInt(n: int, rest: string)
    requires rest == [] || rest[0] == '.'
    ensures IndexOfDot(IntToText(n) + rest) == |IntToText(n)|
  {
    var t := IntToText(n);
    var u := t + rest;
    assert forall j :: 0 <= j < |t| ==> u[j] == t[j] && u[j] != '.';
    if rest != [] {
      assert u[|t|] == '.';
    }
  }

  lemma SliceIndexRoundTrip(min: int)
    ensures ParseSlice(SliceFragment(min, None)) == Some((min, None))
  {
    var s := SliceFragment(min, None);
    var lo := IntToText(min);
    IntRoundTrip(min);
    assert s == "[" + lo + "]";
    assert s[1..|s| - 1] == lo;
    DotAfterInt(min, []);
    assert lo + [] == lo;
    assert lo[..|lo|] == lo;
  }

  lemma UpperRoundTrip(max: int)
    ensures ParseUpper(".." + IntToText(max)) == Some(max)
  {
    var hi := IntToText(max);
    assert (".." + hi)[..2] == "..";
    assert (".." + hi)[2..] == hi;
    IntRoundTrip(max);
  }

  lemma BoundsRoundTrip(min: int, max: int)
    ensures ParseBounds(IntToText(min) + (".." + IntToText(max))) == Some((min, Some(max)))
  {
    var lo, rest := IntToText(min), ".." + IntToText(max);
    var inner := lo + rest;
    DotAfterInt(min, rest);
    assert inner[..|lo|] == lo;
    assert inner[|lo|..] == rest;
    IntRoundTrip(min);
    UpperRoundTrip(max);
  }

  lemma SliceRangeRoundTrip(min: int, max: int)
    ensures ParseSlice(SliceFragment(min, Some(max))) == Some((min, Some(max)))
  {
    var s := SliceFragment(min, Some(max));
    var inner := IntToText(min) + (".." + IntToText(max));
    assert s == "[" + inner + "]";
    assert s[1..|s| - 1] == inner;
    BoundsRoundTrip(min, max);
  }

  /**
   * The slice text determines which overload ran and with which numbers:
   * an upper bound of 0 is still read back as present.
   */
  lemma SliceRoundTrip(min: int, max: Option<int>)
    ensures ParseSlice(SliceFragment(min, max)) == Some((min, max))
  {
    match max
    case None => SliceIndexRoundTrip(min);
    case Some(m) => SliceRangeRoundTrip(min, m);
  }
}

/**
 * scikit-learn's `LabelEncoder` as `prepare_features` uses it on one
 * categorical column: `fit` learns `classes_`, the distinct labels in sorted
 * order, and `transform` replaces each label by its index in `classes_`.
 *
 * A column's cells are text labels or missing values. Like scikit-learn's
 * handling of object columns, a missing value seen during `fit` becomes one
 * extra class placed after every text label.
 */
module Encoding {
  import opened Common
  import opened Frames

  /** Python's `a < b` on `str`: lexicographic order of code points. */
  predicate Below(a: string, b: string)
    decreases |a|
  {
    if a == [] then b != []
    else if b == [] then false
    else a[0] < b[0] || (a[0] == b[0] && Below(a[1..], b[1..]))
  }

  lemma {:induction false} BelowIrreflexive(a: string)
    ensures !Below(a, a)
    decreases |a|
  {
    if a != [] { BelowIrreflexive(a[1..]); }
  }

  lemma {:induction false} BelowTransitive(a: string, b: string, c: string)
    requires Below(a, b) && Below(b, c)
    ensures Below(a, c)
    decreases |a|
  {
    if a != [] && b != [] && c != [] && a[0] == b[0] == c[0] {
      BelowTransitive(a[1..], b[1..], c[1..]);
    }
  }

  /** Any two different strings are ordered one way or the other. */
  lemma {:induction false} BelowTotal(a: string, b: string)
    requires a != b
    ensures Below(a, b) || Below(b, a)
    decreases |a|
  {
    if a != [] && b != [] && a[0] == b[0] {
      assert a == [a[0]] + a[1..] && b == [b[0]] + b[1..];
      BelowTotal(a[1..], b[1..]);
    }
  }

  lemma BelowAsymmetric(a: string, b: string)
    requires Below(a, b)
    ensures !Below(b, a)
  {
    if Below(b, a) {
      BelowTransitive(a, b, a);
      BelowIrreflexive(a);
    }
  }

  predicate StrictlySorted(s: seq<string>) {
    forall i, j | 0 <= i < j < |s| :: Below(s[i], s[j])
  }

  /** Inserts `x` into a strictly sorted sequence, unless it is there already. */
  function Insert(x: string, s: seq<string>): (r: seq<string>)
    requires StrictlySorted(s)
    ensures StrictlySorted(r)
    ensures forall y :: y in r <==> y in s || y == x
  {
    if s == [] then [x]
    else if x == s[0] then s
    else if Below(x, s[0]) then
      assert forall j | 0 < j < |s| :: Below(x, s[j]) by {
        forall j | 0 < j < |s| ensures Below(x, s[j]) { BelowTransitive(x, s[0], s[j]); }
      }
      [x] + s
    else
      BelowTotal(x, s[0]);
      var tail := Insert(x, s[1..]);
      assert forall y | y in tail :: Below(s[0], y);
      [s[0]] + tail
  }

  /** The distinct labels of `xs` in sorted order, as `np.unique` gives them. */
  function SortedDistinct(xs: seq<string>): (r: seq<string>)
    ensures StrictlySorted(r)
    ensures forall y :: y in r <==> y in xs
  {
    if xs == [] then [] else Insert(xs[0], SortedDistinct(xs[1..]))
  }

  /** A strictly sorted sequence has no repeated element. */
  lemma SortedDistinctElements(s: seq<string>, i: nat, j: nat)
    requires StrictlySorted(s) && i < |s| && j < |s| && s[i] == s[j]
    ensures i == j
  {
    if i < j { BelowIrreflexive(s[i]); }
    if j < i { BelowIrreflexive(s[j]); }
  }

  /** The fitted state of a `LabelEncoder`: `classes_`, with the missing class, when present, last. */
  datatype Encoder = Encoder(classes: seq<string>, hasMissing: bool)

  /** The text labels of a column, in order. */
  function Labels(column: seq<Cell>): (r: seq<string>)
    ensures forall s :: s in r <==> Text(s) in column
  {
    if column == [] then []
    else (if column[0].Text? then [column[0].s] else []) + Labels(column[1..])
  }

  /** A cell that `LabelEncoder` treats as missing. */
  predicate IsMissing(c: Cell) { !c.Text? }

  /** `LabelEncoder().fit(column)`. */
  function Fit(column: seq<Cell>): (e: Encoder)
    ensures StrictlySorted(e.classes)
    ensures forall s :: s in e.classes <==> Text(s) in column
    ensures e.hasMissing <==> exists c | c in column :: IsMissing(c)
  {
    Encoder(SortedDistinct(Labels(column)), exists c | c in column :: IsMissing(c))
  }

  /** The position of `x` in `s`. */
  function IndexOf(s: seq<string>, x: string): (i: nat)
    requires x in s
    ensures i < |s| && s[i] == x
  {
    if s[0] == x then 0 else 1 + IndexOf(s[1..], x)
  }

  /**
   * The code `transform` gives one cell, or None when the cell is not a class:
   * a text label has a code iff it is a class, a missing cell iff the missing
   * class was fitted, and every code indexes `classes_`.
   */
  function Code(e: Encoder, c: Cell): (k: Option<nat>)
    ensures c.Text? ==> (k.Some? <==> c.s in e.classes)
    ensures !c.Text? ==> (k.Some? <==> e.hasMissing)
    ensures k.Some? ==> k.value < |e.classes| + (if e.hasMissing then 1 else 0)
  {
    match c
    case Text(s) => if s in e.classes then Some(IndexOf(e.classes, s)) else None
    case _ => if e.hasMissing then Some(|e.classes|) else None
  }

  /** `inverse_transform` of one code. */
  function Decode(e: Encoder, k: nat): Option<Cell> {
    if k < |e.classes| then Some(Text(e.classes[k]))
    else if k == |e.classes| && e.hasMissing then Some(Missing)
    else None
  }

  /** The cell as `fit` records it: a text label, or missing. */
  function Canonical(c: Cell): Cell {
    if c.Text? then c else Missing
  }

  /**
   * A column through `prepare_features`' encoding of an existing encoder:
   * `transform`, and when that raises, `fillna(classes_[0])` and `transform`
   * again. Only missing cells are filled, so an unseen text label still fails.
   */
  function EncodeColumn(name: string, e: Encoder, column: seq<Cell>): (r: Result<seq<nat>>)
    ensures r.Ok? ==> |r.value| == |column|
    ensures r.Ok? ==> forall i | 0 <= i < |column| :: r.value[i] < |e.classes| + (if e.hasMissing then 1 else 0)
    ensures r.Ok? ==> forall i | 0 <= i < |column| && column[i].Text? :: Code(e, column[i]) == Some(r.value[i])
    ensures (exists i | 0 <= i < |column| :: column[i].Text? && column[i].s !in e.classes) ==> r.Err?
    ensures r.Err? ==> r.error == UnseenLabel(name) || r.error == NoClasses(name)
  {
    if forall c | c in column :: Code(e, c).Some? then
      Ok(seq(|column|, i requires 0 <= i < |column| => Code(e, column[i]).value))
    else if e.classes == [] then
      // classes_ is empty (IndexError), or holds only the missing class, so filling changes nothing
      if e.hasMissing then Err(UnseenLabel(name)) else Err(NoClasses(name))
    else if exists c | c in column :: c.Text? && c.s !in e.classes then
      Err(UnseenLabel(name))
    else
      Ok(seq(|column|, i requires 0 <= i < |column| => if column[i].Text? then Code(e, column[i]).value else 0))
  }

  /** The code of a class is its rank: exactly the classes before it are below it. */
  lemma CodeIsRank(e: Encoder, s: string, j: nat)
    requires StrictlySorted(e.classes) && Code(e, Text(s)).Some? && j < |e.classes|
    ensures Below(e.classes[j], s) <==> j < Code(e, Text(s)).value
  {
    var k := Code(e, Text(s)).value;
    if j == k {
      BelowIrreflexive(s);
    } else if k < j {
      BelowAsymmetric(s, e.classes[j]);
    }
  }

  /** Decoding a code gives back the cell it encodes: `inverse_transform(transform(x)) == x`. */
  lemma CodeRoundTrip(e: Encoder, c: Cell)
    requires Code(e, c).Some?
    ensures Decode(e, Code(e, c).value) == Some(Canonical(c))
  {
  }

  /** Two cells that are different classes get different codes. */
  lemma CodeInjective(e: Encoder, c: Cell, d: Cell)
    requires Code(e, c).Some? && Code(e, d).Some? && Code(e, c) == Code(e, d)
    ensures Canonical(c) == Canonical(d)
  {
    CodeRoundTrip(e, c);
    CodeRoundTrip(e, d);
  }

  /** `fit_transform`: every cell of the fitting column has a code, so encoding it never fails. */
  lemma FitThenEncode(name: string, column: seq<Cell>)
    ensures EncodeColumn(name, Fit(column), column).Ok?
    ensures forall i | 0 <= i < |column| :: Code(Fit(column), column[i]).Some?
  {
    var e := Fit(column);
    forall c | c in column ensures Code(e, c).Some? {
      if c.Text? { assert c.s in e.classes; } else { assert IsMissing(c); }
    }
  }

  /**
   * When encoding a column with a fitted encoder succeeds: every text label is
   * a class, and a missing cell is allowed when the encoder has the missing
   * class or has some class to fill it with.
   */
  lemma EncodeColumnSucceeds(name: string, e: Encoder, column: seq<Cell>)
    ensures EncodeColumn(name, e, column).Ok? <==>
              (forall c | c in column && c.Text? :: c.s in e.classes) &&
              ((exists c | c in column :: IsMissing(c)) ==> e.hasMissing || e.classes != [])
  {
    if forall c | c in column :: Code(e, c).Some? {
    } else if e.classes == [] {
      var c :| c in column && Code(e, c).None?;
    }
  }

  /** The fallback path: a missing cell gets code 0, the code of `classes_[0]`. */
  lemma FallbackCodes(name: string, e: Encoder, column: seq<Cell>, i: nat)
    requires EncodeColumn(name, e, column).Ok? && i < |column|
    ensures Code(e, column[i]).Some? ==> EncodeColumn(name, e, column).value[i] == Code(e, column[i]).value
    ensures Code(e, column[i]).None? ==> IsMissing(column[i]) && EncodeColumn(name, e, column).value[i] == 0
  {
  }
}

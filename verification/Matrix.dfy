/** Matrix expressions: their dimensions, and the cross product in row-major order. */
module Matrix {
  import opened Wrappers

  /** One dimension: a key and its values, in order. */
  datatype Dim = Dim(key: string, vals: seq<string>)

  type Cell = map<string, string>

  datatype Failure = BadDimension(part: string) | Duplicate(key: string) | Empty
  datatype Result<T> = Ok(value: T) | Err(error: Failure)

  // ------------------------------------------------------------------ the expression

  predicate IsSpace(c: char) {
    c in {' ', '\t', '\n', '\r', '\U{b}', '\U{c}'} || '\U{1c}' <= c <= '\U{1f}'
  }

  /** By code: tab to carriage return, the four separators, and the space. */
  lemma SpacesByCode(c: char)
    ensures IsSpace(c) <==> 9 <= c as int <= 13 || 28 <= c as int <= 32
  {
  }

  function StripLeft(s: string): (r: string)
    ensures |r| <= |s| && (r != "" ==> !IsSpace(r[0]))
  {
    if s != "" && IsSpace(s[0]) then StripLeft(s[1..]) else s
  }

  function StripRight(s: string): (r: string)
    ensures |r| <= |s| && (r != "" ==> !IsSpace(r[|r| - 1]))
    ensures r <= s
  {
    if s != "" && IsSpace(s[|s| - 1]) then StripRight(s[..|s| - 1]) else s
  }

  function Strip(s: string): string {
    StripRight(StripLeft(s))
  }

  /** The pieces between separators, empty ones included. */
  function Split(s: string, seps: set<char>): (r: seq<string>)
    ensures |r| >= 1
  {
    if s == "" then [""]
    else
      var n := |s| - 1;
      var prior := Split(s[..n], seps);
      if s[n] in seps then prior + [""] else prior[|prior| - 1 := prior[|prior| - 1] + [s[n]]]
  }

  /** Position of the first `=`; the length without one. */
  function FirstEq(s: string): (n: nat)
    ensures n <= |s| && (n < |s| ==> s[n] == '=')
  {
    if s == "" || s[0] == '=' then 0 else 1 + FirstEq(s[1..])
  }

  function NonEmpty(parts: seq<string>): (r: seq<string>)
    ensures forall k :: 0 <= k < |r| ==> r[k] != ""
  {
    if parts == [] then []
    else
      var rest := NonEmpty(parts[..|parts| - 1]);
      var v := Strip(parts[|parts| - 1]);
      if v == "" then rest else rest + [v]
  }

  /** A stripped part as a dimension: `key=v1,v2`, with a key and at least one value. */
  function ReadDim(part: string): Option<Dim> {
    var n := FirstEq(part);
    var key := Strip(part[..n]);
    var vals := if n < |part| then NonEmpty(Split(part[n + 1..], {','})) else [];
    if n == |part| || key == "" || vals == [] then None else Some(Dim(key, vals))
  }

  predicate HasKey(dims: seq<Dim>, key: string) {
    exists k :: 0 <= k < |dims| && dims[k].key == key
  }

  /** The dimensions of the parts, or the first fault. */
  function ReadDims(parts: seq<string>): Result<seq<Dim>> {
    if parts == [] then Ok([])
    else
      match ReadDims(parts[..|parts| - 1])
      case Err(e) => Err(e)
      case Ok(dims) =>
        var part := Strip(parts[|parts| - 1]);
        if part == "" then Ok(dims)
        else
          var d := ReadDim(part);
          if d.None? then Err(BadDimension(part))
          else if HasKey(dims, d.value.key) then Err(Duplicate(d.value.key))
          else Ok(dims + [d.value])
  }

  /** Dimensions as parsing yields them. */
  ghost predicate DimsOk(dims: seq<Dim>) {
    && (forall k :: 0 <= k < |dims| ==> dims[k].key != "" && dims[k].vals != [])
    && forall j, k :: 0 <= j < k < |dims| ==> dims[j].key != dims[k].key
  }

  lemma ReadDimOk(part: string)
    ensures ReadDim(part).Some? ==> ReadDim(part).value.key != "" && ReadDim(part).value.vals != []
  {
  }

  lemma {:induction false} ParsedDimsOk(parts: seq<string>)
    ensures ReadDims(parts).Ok? ==> DimsOk(ReadDims(parts).value)
  {
    hide ReadDim, Strip;
    if parts != [] {
      ParsedDimsOk(parts[..|parts| - 1]);
      ReadDimOk(Strip(parts[|parts| - 1]));
    }
  }

  // ------------------------------------------------------------------ written and read back

  /** Written without surrounding white space and without the characters that separate. */
  predicate Plain(s: string, seps: set<char>) {
    s != "" && !IsSpace(s[0]) && !IsSpace(s[|s| - 1]) && forall c :: c in s ==> c !in seps
  }

  function Join(parts: seq<string>, sep: char): string {
    if parts == [] then ""
    else if |parts| == 1 then parts[0]
    else Join(parts[..|parts| - 1], sep) + [sep] + parts[|parts| - 1]
  }

  function Written(d: Dim): string {
    d.key + "=" + Join(d.vals, ',')
  }

  function WrittenAll(dims: seq<Dim>): (r: seq<string>)
    ensures |r| == |dims| && forall k :: 0 <= k < |dims| ==> r[k] == Written(dims[k])
  {
    seq(|dims|, k requires 0 <= k < |dims| => Written(dims[k]))
  }

  const DIM_SEPS: set<char> := {'\U{d7}', '*'}

  /** Keys and values that can be written down. */
  predicate Writable(d: Dim) {
    && Plain(d.key, DIM_SEPS + {'='})
    && d.vals != [] && forall k :: 0 <= k < |d.vals| ==> Plain(d.vals[k], DIM_SEPS + {','})
  }

  lemma {:induction false} SplitMore(s: string, sep: char, t: string, seps: set<char>)
    requires sep in seps && forall c :: c in t ==> c !in seps
    ensures Split(s + [sep] + t, seps) == Split(s, seps) + [t]
  {
    var all := s + [sep] + t;
    if t == "" {
      assert all[..|all| - 1] == s;
    } else {
      var n := |t| - 1;
      assert all[..|all| - 1] == s + [sep] + t[..n];
      SplitMore(s, sep, t[..n], seps);
      assert t == t[..n] + [t[n]];
    }
  }

  lemma {:induction false} SplitNone(s: string, seps: set<char>)
    requires forall c :: c in s ==> c !in seps
    ensures Split(s, seps) == [s]
  {
    if s != "" {
      SplitNone(s[..|s| - 1], seps);
      assert s == s[..|s| - 1] + [s[|s| - 1]];
    }
  }

  lemma {:induction false} SplitJoined(parts: seq<string>, sep: char, seps: set<char>)
    requires parts != [] && sep in seps
    requires forall k :: 0 <= k < |parts| ==> forall c :: c in parts[k] ==> c !in seps
    ensures Split(Join(parts, sep), seps) == parts
  {
    var n := |parts| - 1;
    if n == 0 {
      SplitNone(parts[0], seps);
    } else {
      SplitJoined(parts[..n], sep, seps);
      SplitMore(Join(parts[..n], sep), sep, parts[n], seps);
      assert parts == parts[..n] + [parts[n]];
    }
  }

  lemma StripPlain(s: string)
    requires s != "" && !IsSpace(s[0]) && !IsSpace(s[|s| - 1])
    ensures Strip(s) == s
  {
  }

  lemma {:induction false} NonEmptyPlain(vals: seq<string>, seps: set<char>)
    requires forall k :: 0 <= k < |vals| ==> Plain(vals[k], seps)
    ensures NonEmpty(vals) == vals
  {
    if vals != [] {
      var n := |vals| - 1;
      NonEmptyPlain(vals[..n], seps);
      StripPlain(vals[n]);
      assert vals == vals[..n] + [vals[n]];
    }
  }

  lemma {:induction false} FirstEqOf(key: string, rest: string)
    requires '=' !in key
    ensures FirstEq(key + "=" + rest) == |key|
  {
    var s := key + "=" + rest;
    if key != "" {
      assert s[1..] == key[1..] + "=" + rest;
      assert s[0] == key[0] && key[0] in key;
      FirstEqOf(key[1..], rest);
    }
  }

  lemma {:induction false} JoinEnds(parts: seq<string>, sep: char, seps: set<char>)
    requires parts != [] && forall k :: 0 <= k < |parts| ==> Plain(parts[k], seps)
    ensures var s := Join(parts, sep); s != "" && !IsSpace(s[|s| - 1])
    ensures forall c :: c in Join(parts, sep) ==> c == sep || exists k :: 0 <= k < |parts| && c in parts[k]
  {
    var n := |parts| - 1;
    if n > 0 {
      JoinEnds(parts[..n], sep, seps);
      var s := Join(parts, sep);
      assert s[|s| - 1] == parts[n][|parts[n]| - 1];
      forall c | c in s ensures c == sep || exists k :: 0 <= k < |parts| && c in parts[k] {
        if c in Join(parts[..n], sep) && c != sep {
          var k :| 0 <= k < n && c in parts[..n][k];
          assert c in parts[k];
        } else if c != sep {
          assert c in parts[n];
        }
      }
    }
  }

  /** One dimension is read back as it was written. */
  lemma {:induction false} DimReadsBack(d: Dim)
    requires Writable(d)
    ensures ReadDim(Written(d)) == Some(d) && Strip(Written(d)) == Written(d) && Written(d) != ""
    ensures forall c :: c in Written(d) ==> c !in DIM_SEPS
  {
    hide Strip, Split, NonEmpty, FirstEq, Join;
    var rest := Join(d.vals, ',');
    var part := Written(d);
    assert '=' !in d.key;
    FirstEqOf(d.key, rest);
    assert part[..|d.key|] == d.key && part[|d.key| + 1..] == rest;
    StripPlain(d.key);
    forall k | 0 <= k < |d.vals| ensures forall c :: c in d.vals[k] ==> c !in {','} {
    }
    SplitJoined(d.vals, ',', {','});
    NonEmptyPlain(d.vals, DIM_SEPS + {','});
    JoinEnds(d.vals, ',', DIM_SEPS + {','});
    assert part[0] == d.key[0] && part[|part| - 1] == rest[|rest| - 1];
    StripPlain(part);
  }

  lemma {:induction false} PartsReadBack(dims: seq<Dim>)
    requires DimsOk(dims) && forall k :: 0 <= k < |dims| ==> Writable(dims[k])
    ensures ReadDims(WrittenAll(dims)) == Ok(dims)
  {
    hide ReadDim, Strip, Written, Writable;
    if dims != [] {
      var n := |dims| - 1;
      PartsReadBack(dims[..n]);
      assert WrittenAll(dims)[..n] == WrittenAll(dims[..n]);
      DimReadsBack(dims[n]);
      assert dims == dims[..n] + [dims[n]];
    }
  }

  /** Dimensions with plain keys and values, written with either separator, are read back. */
  lemma {:induction false} WrittenIsReadBack(dims: seq<Dim>, sep: char)
    requires dims != [] && DimsOk(dims) && sep in DIM_SEPS
    requires forall k :: 0 <= k < |dims| ==> Writable(dims[k])
    ensures ReadDims(Split(Join(WrittenAll(dims), sep), DIM_SEPS)) == Ok(dims)
  {
    hide Writable, Written, ReadDims, Join, Split, DimsOk;
    forall k | 0 <= k < |dims| ensures forall c :: c in WrittenAll(dims)[k] ==> c !in DIM_SEPS {
      DimReadsBack(dims[k]);
    }
    SplitJoined(WrittenAll(dims), sep, DIM_SEPS);
    PartsReadBack(dims);
  }

  // ------------------------------------------------------------------ the cross product

  /** One cell with each value of a dimension. */
  function Row(cell: Cell, d: Dim): (r: seq<Cell>)
    ensures |r| == |d.vals| && forall v :: 0 <= v < |r| ==> r[v] == cell[d.key := d.vals[v]]
  {
    seq(|d.vals|, v requires 0 <= v < |d.vals| => cell[d.key := d.vals[v]])
  }

  /** Every cell with every value of one more dimension, values varying fastest. */
  function Extend(cells: seq<Cell>, d: Dim): seq<Cell> {
    if cells == [] then [] else Extend(cells[..|cells| - 1], d) + Row(cells[|cells| - 1], d)
  }

  lemma {:induction false} ExtendCount(cells: seq<Cell>, d: Dim)
    ensures |Extend(cells, d)| == |cells| * |d.vals|
  {
    if cells != [] {
      ExtendCount(cells[..|cells| - 1], d);
      OneMoreRow(|cells| - 1, |d.vals|);
    }
  }

  lemma OneMoreRow(q: nat, n: nat)
    ensures (q + 1) * n == q * n + n
  {
  }

  /** The cell at row `q` and column `v`. */
  lemma {:induction false} ExtendAt(cells: seq<Cell>, d: Dim, q: nat, v: nat)
    requires q < |cells| && v < |d.vals|
    ensures q * |d.vals| + v < |Extend(cells, d)|
    ensures Extend(cells, d)[q * |d.vals| + v] == cells[q][d.key := d.vals[v]]
  {
    var last := |cells| - 1;
    ExtendCount(cells[..last], d);
    if q < last {
      ExtendAt(cells[..last], d, q, v);
    }
  }

  lemma Scale(a: nat, b: nat, n: nat)
    requires a <= b
    ensures a * n <= b * n
  {
  }

  /** The row and column of an index. */
  lemma {:induction false} RowAndColumn(i: nat, rows: nat, n: nat)
    requires n > 0 && i < rows * n
    ensures i / n < rows && i % n < n && i == (i / n) * n + i % n
  {
    if i / n >= rows {
      Scale(rows, i / n, n);
    }
  }

  ghost predicate AllValued(dims: seq<Dim>) {
    forall k :: 0 <= k < |dims| ==> dims[k].vals != []
  }

  function Product(dims: seq<Dim>): (r: seq<Cell>)
    requires forall k :: 0 <= k < |dims| ==> dims[k].vals != []
  {
    if dims == [] then [map[]] else Extend(Product(dims[..|dims| - 1]), dims[|dims| - 1])
  }

  /** The number of cells, and the number of cells one value of dimension `j - 1` covers. */
  function Count(dims: seq<Dim>): nat {
    if dims == [] then 1 else Count(dims[..|dims| - 1]) * |dims[|dims| - 1].vals|
  }

  /** The number of cells a step in dimension `j` skips: the product of the later counts. */
  function Stride(dims: seq<Dim>, j: nat): nat
    requires j < |dims|
  {
    if j == |dims| - 1 then 1 else Stride(dims[..|dims| - 1], j) * |dims[|dims| - 1].vals|
  }

  lemma {:induction false} StridePositive(dims: seq<Dim>, j: nat)
    requires AllValued(dims) && j < |dims|
    ensures Stride(dims, j) > 0
  {
    if j < |dims| - 1 {
      StridePositive(dims[..|dims| - 1], j);
      Positive(Stride(dims[..|dims| - 1], j), |dims[|dims| - 1].vals|);
    }
  }

  lemma Positive(a: nat, b: nat)
    requires a > 0 && b > 0
    ensures a * b > 0
  {
  }

  lemma {:induction false} CountOfProduct(dims: seq<Dim>)
    requires AllValued(dims)
    ensures |Product(dims)| == Count(dims)
  {
    hide Extend;
    if dims != [] {
      CountOfProduct(dims[..|dims| - 1]);
      ExtendCount(Product(dims[..|dims| - 1]), dims[|dims| - 1]);
    }
  }

  lemma DivMod(i: nat, n: nat)
    requires n > 0
    ensures i == (i / n) * n + i % n && i % n < n
  {
  }

  lemma {:induction false} DivTwice(i: nat, a: nat, b: nat)
    requires a > 0 && b > 0
    ensures a * b > 0 && i / (a * b) == (i / b) / a
  {
    Positive(a, b);
    var h, s := i / b, i % b;
    var q, r := h / a, h % a;
    DivMod(i, b);
    DivMod(h, a);
    Pack(i, h, s, q, r, a, b);
    Unique(i, a * b, q, r * b + s);
  }

  lemma {:induction false} Pack(i: nat, h: nat, s: nat, q: nat, r: nat, a: nat, b: nat)
    requires i == h * b + s && s < b && h == q * a + r && r < a
    ensures i == q * (a * b) + (r * b + s) && r * b + s < a * b
  {
    Expand(q, a, r, b);
    Scale(r + 1, a, b);
    OneMoreRow(r, b);
  }

  lemma Expand(q: nat, a: nat, r: nat, b: nat)
    ensures (q * a + r) * b == q * (a * b) + r * b
  {
  }

  lemma {:induction false} Unique(i: nat, n: nat, q: nat, s: nat)
    requires s < n && i == q * n + s
    ensures i / n == q && i % n == s
  {
    var q', s' := i / n, i % n;
    assert i == q' * n + s' && 0 <= s' < n;
    if q' < q {
      Scale(q' + 1, q, n);
    } else if q < q' {
      Scale(q + 1, q', n);
    }
  }

  /** Row-major order: cell `i` carries, for dimension `j`, the value at position
      `i div (product of the later counts) mod (its own count)`. */
  lemma {:induction false} RowMajor(dims: seq<Dim>, i: nat, j: nat)
    requires DimsOk(dims) && i < |Product(dims)| && j < |dims|
    ensures Stride(dims, j) > 0
    ensures dims[j].key in Product(dims)[i]
    ensures Product(dims)[i][dims[j].key] == dims[j].vals[(i / Stride(dims, j)) % |dims[j].vals|]
  {
    hide Extend;
    var n := |dims| - 1;
    var init, d := dims[..n], dims[n];
    StridePositive(dims, j);
    CellAt(dims, i);
    if j < n {
      RowMajor(init, i / |d.vals|, j);
      StridePositive(init, j);
      DivTwice(i, Stride(init, j), |d.vals|);
      assert init[j] == dims[j];
    }
  }

  /** Cell `i` extends the cell of its row by the value of its column. */
  lemma {:induction false} CellAt(dims: seq<Dim>, i: nat)
    requires AllValued(dims) && dims != [] && i < |Product(dims)|
    ensures
      var init, d := dims[..|dims| - 1], dims[|dims| - 1];
      && i / |d.vals| < |Product(init)|
      && Product(dims)[i] == Product(init)[i / |d.vals|][d.key := d.vals[i % |d.vals|]]
  {
    hide Extend, Product;
    ProductGrows(dims);
    var init, d := dims[..|dims| - 1], dims[|dims| - 1];
    ExtendCount(Product(init), d);
    RowAndColumn(i, |Product(init)|, |d.vals|);
    ExtendAt(Product(init), d, i / |d.vals|, i % |d.vals|);
  }

  lemma ProductGrows(dims: seq<Dim>)
    requires AllValued(dims) && dims != []
    ensures Product(dims) == Extend(Product(dims[..|dims| - 1]), dims[|dims| - 1])
  {
    hide Extend;
  }

  // ------------------------------------------------------------------ each combination once

  predicate Positions(dims: seq<Dim>, p: seq<nat>) {
    |p| == |dims| && forall j :: 0 <= j < |dims| ==> p[j] < |dims[j].vals|
  }

  /** The value positions of cell `i`, dimension by dimension. */
  function Digits(dims: seq<Dim>, i: nat): (p: seq<nat>)
    requires forall k :: 0 <= k < |dims| ==> dims[k].vals != []
    ensures |p| == |dims|
  {
    if dims == [] then []
    else Digits(dims[..|dims| - 1], i / |dims[|dims| - 1].vals|) + [i % |dims[|dims| - 1].vals|]
  }

  /** The cell of a choice of value positions. */
  function Index(dims: seq<Dim>, p: seq<nat>): nat
    requires |p| == |dims|
  {
    if dims == [] then 0
    else Index(dims[..|dims| - 1], p[..|p| - 1]) * |dims[|dims| - 1].vals| + p[|p| - 1]
  }

  lemma {:induction false} DigitAt(dims: seq<Dim>, i: nat, j: nat)
    requires AllValued(dims) && j < |dims|
    ensures Stride(dims, j) > 0 && Digits(dims, i)[j] == (i / Stride(dims, j)) % |dims[j].vals|
  {
    var n := |dims| - 1;
    StridePositive(dims, j);
    if j < n {
      DigitAt(dims[..n], i / |dims[n].vals|, j);
      StridePositive(dims[..n], j);
      DivTwice(i, Stride(dims[..n], j), |dims[n].vals|);
    }
  }

  lemma {:induction false} Below(q: nat, v: nat, rows: nat, n: nat)
    requires q < rows && v < n
    ensures q * n + v < rows * n
  {
    Scale(q + 1, rows, n);
    OneMoreRow(q, n);
  }

  lemma {:induction false} DigitsOfIndex(dims: seq<Dim>, p: seq<nat>)
    requires AllValued(dims) && Positions(dims, p)
    ensures Index(dims, p) < Count(dims) && Digits(dims, Index(dims, p)) == p
  {
    if dims != [] {
      var n := |dims| - 1;
      DigitsOfIndex(dims[..n], p[..n]);
      var q := Index(dims[..n], p[..n]);
      Below(q, p[n], Count(dims[..n]), |dims[n].vals|);
      Unique(q * |dims[n].vals| + p[n], |dims[n].vals|, q, p[n]);
    }
  }

  lemma {:induction false} IndexOfDigits(dims: seq<Dim>, i: nat)
    requires AllValued(dims) && i < Count(dims)
    ensures Positions(dims, Digits(dims, i)) && Index(dims, Digits(dims, i)) == i
  {
    if dims != [] {
      var n := |dims| - 1;
      RowAndColumn(i, Count(dims[..n]), |dims[n].vals|);
      IndexOfDigits(dims[..n], i / |dims[n].vals|);
      assert Digits(dims, i)[..n] == Digits(dims[..n], i / |dims[n].vals|);
    }
  }

  /** Each choice of value positions is the choice of exactly one cell, and that cell carries
      the chosen values. */
  lemma EachCombinationOnce(dims: seq<Dim>, p: seq<nat>)
    requires DimsOk(dims) && Positions(dims, p)
    ensures
      var i := Index(dims, p);
      && i < |Product(dims)|
      && (forall j :: 0 <= j < |dims| ==>
        dims[j].key in Product(dims)[i] && Product(dims)[i][dims[j].key] == dims[j].vals[p[j]])
      && forall k: nat :: k < |Product(dims)| && Digits(dims, k) == p ==> k == i
  {
    hide Product, Index, Digits, Count, Stride;
    var i := Index(dims, p);
    DigitsOfIndex(dims, p);
    CountOfProduct(dims);
    forall j | 0 <= j < |dims|
      ensures dims[j].key in Product(dims)[i] && Product(dims)[i][dims[j].key] == dims[j].vals[p[j]]
    {
      RowMajor(dims, i, j);
      DigitAt(dims, i, j);
    }
    forall k: nat | k < |Product(dims)| && Digits(dims, k) == p ensures k == i {
      IndexOfDigits(dims, k);
    }
  }

  /** A cell has exactly the keys of the dimensions. */
  lemma {:induction false} CellKeys(dims: seq<Dim>, i: nat, key: string)
    requires AllValued(dims) && i < |Product(dims)|
    ensures key in Product(dims)[i] <==> HasKey(dims, key)
  {
    if dims != [] {
      var n := |dims| - 1;
      hide Product;
      CellAt(dims, i);
      CellKeys(dims[..n], i / |dims[n].vals|, key);
      assert forall k :: 0 <= k < n ==> dims[..n][k] == dims[k];
    }
  }

  // ------------------------------------------------------------------ the loops

  /** Dimension by dimension, refusing faults; then cell by cell, value by value. */
  method ParseMatrix(expr: string) returns (r: Result<seq<Cell>>)
    ensures
      match ReadDims(Split(expr, DIM_SEPS))
      case Err(e) => r == Err(e)
      case Ok(dims) => if dims == [] then r == Err(Empty) else DimsOk(dims) && r == Ok(Product(dims))
  {
    hide ReadDim, Strip, Split, Extend;
    var parts := Split(expr, DIM_SEPS);
    var dims: seq<Dim> := [];
    for k := 0 to |parts|
      invariant ReadDims(parts[..k]) == Ok(dims)
    {
      assert parts[..k + 1][..k] == parts[..k];
      var part := Strip(parts[k]);
      if part != "" {
        var d := ReadDim(part);
        if d.None? {
          FirstFault(parts, k + 1, BadDimension(part));
          return Err(BadDimension(part));
        }
        for q := 0 to |dims|
          invariant forall x :: 0 <= x < q ==> dims[x].key != d.value.key
        {
          if dims[q].key == d.value.key {
            FirstFault(parts, k + 1, Duplicate(d.value.key));
            return Err(Duplicate(d.value.key));
          }
        }
        dims := dims + [d.value];
      }
    }
    assert parts[..|parts|] == parts;
    ParsedDimsOk(parts);
    if dims == [] {
      return Err(Empty);
    }
    var cells: seq<Cell> := [map[]];
    for k := 0 to |dims|
      invariant cells == Product(dims[..k])
    {
      assert dims[..k + 1][..k] == dims[..k];
      cells := ExtendCells(cells, dims[k]);
    }
    assert dims[..|dims|] == dims;
    r := Ok(cells);
  }

  method ExtendCells(cells: seq<Cell>, d: Dim) returns (out: seq<Cell>)
    ensures out == Extend(cells, d)
  {
    out := [];
    for q := 0 to |cells|
      invariant out == Extend(cells[..q], d)
    {
      assert cells[..q + 1][..q] == cells[..q];
      ghost var before := out;
      for v := 0 to |d.vals|
        invariant out == before + Row(cells[q], d)[..v]
      {
        out := out + [cells[q][d.key := d.vals[v]]];
      }
      assert Row(cells[q], d)[..|d.vals|] == Row(cells[q], d);
    }
    assert cells[..|cells|] == cells;
  }

  /** A fault among the first parts is the fault of all of them. */
  lemma {:induction false} FirstFault(parts: seq<string>, k: nat, e: Failure)
    requires k <= |parts| && ReadDims(parts[..k]) == Err(e)
    ensures ReadDims(parts) == Err(e)
  {
    hide ReadDim, Strip;
    if k == |parts| {
      assert parts[..k] == parts;
    } else {
      assert parts[..|parts| - 1][..k] == parts[..k];
      FirstFault(parts[..|parts| - 1], k, e);
    }
  }
}

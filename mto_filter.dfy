/** `filter_mto`: the rows of a scan table whose band overlaps the band 5600-5650 MHz
    that is watched for weather radar. A band edge that is unknown (`NaN` in the table)
    fails both comparisons, so such a row is dropped. */
module MtoFilter {
  import opened Wrappers
  import IwResolve
  import IwlistScan

  const MtoMin: int := 5600
  const MtoMax: int := 5650

  /** `nets.fmin < MTO_MAX` and `nets.fmax > MTO_MIN`, both strict. */
  predicate Keep(edges: (Option<int>, Option<int>))
  {
    edges.0.Some? && edges.1.Some? && edges.0.value < MtoMax && edges.1.value > MtoMin
  }

  /** The rows kept, in the order of the table; `edges` reads a row's `fmin` and `fmax`. */
  function FilterMto<R(==)>(nets: seq<R>, edges: R -> (Option<int>, Option<int>)): (r: seq<R>)
    ensures |r| <= |nets|
    ensures forall x :: x in r ==> x in nets && Keep(edges(x))
  {
    if nets == [] then []
    else (if Keep(edges(nets[0])) then [nets[0]] else []) + FilterMto(nets[1..], edges)
  }

  /** A row is kept exactly when it is in the table and its band overlaps. */
  lemma {:induction false} FilterMembers<R>(nets: seq<R>, edges: R -> (Option<int>, Option<int>), x: R)
    ensures x in FilterMto(nets, edges) <==> x in nets && Keep(edges(x))
  {
    if nets != [] {
      FilterMembers(nets[1..], edges, x);
      assert nets == [nets[0]] + nets[1..];
    }
  }

  /** Each row is kept as often as it occurs in the table when its band overlaps, and not
      at all otherwise. */
  lemma {:induction false} FilterCounts<R>(nets: seq<R>, edges: R -> (Option<int>, Option<int>), x: R)
    ensures multiset(FilterMto(nets, edges))[x] == if Keep(edges(x)) then multiset(nets)[x] else 0
  {
    if nets != [] {
      FilterCounts(nets[1..], edges, x);
      assert nets == [nets[0]] + nets[1..];
      assert multiset(nets) == multiset([nets[0]]) + multiset(nets[1..]);
    }
  }

  /** `a` is `b` with some rows left out, the others in their order. */
  predicate SubsequenceOf<R(==)>(a: seq<R>, b: seq<R>)
    decreases |b|
  {
    if a == [] then true
    else if b == [] then false
    else (a[0] == b[0] && SubsequenceOf(a[1..], b[1..])) || SubsequenceOf(a, b[1..])
  }

  /** The kept rows keep the order of the table. */
  lemma {:induction false} FilterOrder<R>(nets: seq<R>, edges: R -> (Option<int>, Option<int>))
    ensures SubsequenceOf(FilterMto(nets, edges), nets)
  {
    if nets != [] {
      var rest := FilterMto(nets[1..], edges);
      FilterOrder(nets[1..], edges);
      if Keep(edges(nets[0])) {
        assert FilterMto(nets, edges) == [nets[0]] + rest;
        assert ([nets[0]] + rest)[1..] == rest;
      } else {
        assert FilterMto(nets, edges) == rest;
        if rest != [] {
          SubsequenceRest(rest, nets);
        }
      }
    }
  }

  /** A subsequence of the tail is a subsequence of the whole. */
  lemma SubsequenceRest<R>(a: seq<R>, b: seq<R>)
    requires b != [] && SubsequenceOf(a, b[1..])
    ensures SubsequenceOf(a, b)
  {
  }

  /** Filtering an already filtered table changes nothing. */
  lemma {:induction false} FilterIdempotent<R>(nets: seq<R>, edges: R -> (Option<int>, Option<int>))
    ensures FilterMto(FilterMto(nets, edges), edges) == FilterMto(nets, edges)
  {
    FilterAllKept(FilterMto(nets, edges), edges);
  }

  /** A table whose every band overlaps is kept whole. */
  lemma {:induction false} FilterAllKept<R>(nets: seq<R>, edges: R -> (Option<int>, Option<int>))
    requires forall x :: x in nets ==> Keep(edges(x))
    ensures FilterMto(nets, edges) == nets
  {
    if nets != [] {
      assert nets[0] in nets;
      assert forall x :: x in nets[1..] ==> x in nets;
      FilterAllKept(nets[1..], edges);
      assert nets == [nets[0]] + nets[1..];
    }
  }

  /** A band that only touches the watched band at an edge does not overlap it: the
      comparisons are strict. */
  lemma TouchingDropped(fmin: int, fmax: int)
    requires fmax == MtoMin || fmin == MtoMax
    ensures !Keep((Some(fmin), Some(fmax)))
  {
  }

  /** The frequency `f` lies in the band fmin-fmax and strictly inside 5600-5650 MHz. */
  predicate Shared(f: int, fmin: int, fmax: int)
  {
    fmin <= f <= fmax && MtoMin < f < MtoMax
  }

  /** For a band with fmin <= fmax, keeping means sharing more than an edge with
      5600-5650 MHz: some frequency of the band lies strictly inside it. */
  lemma KeepOverlap(fmin: int, fmax: int)
    requires fmin <= fmax
    ensures Keep((Some(fmin), Some(fmax))) <==> exists f :: Shared(f, fmin, fmax)
  {
    if Keep((Some(fmin), Some(fmax))) {
      var f := if fmin > MtoMin then fmin else MtoMin + 1;
      assert Shared(f, fmin, fmax);
    }
  }

  /** The band edges of a row of the `iw` table. */
  function IwEdges(n: IwResolve.Net): (Option<int>, Option<int>)
  {
    (Some(n.fmin), Some(n.fmax))
  }

  /** The band edges of a row of the `iwlist` table, absent when `center1` or `chanbw` is. */
  function IwlistEdges(n: IwlistScan.IwlistNet): (Option<int>, Option<int>)
  {
    (n.fmin, n.fmax)
  }

  /** `filter_mto` on the `iw` table: the rows whose band 'Fc' -/+ chanbw//2 overlaps. */
  lemma IwFilter(nets: seq<IwResolve.Net>, x: IwResolve.Net)
    ensures x in FilterMto(nets, IwEdges) <==> x in nets && x.fmin < MtoMax && x.fmax > MtoMin
  {
    FilterMembers(nets, IwEdges, x);
  }

  /** `filter_mto` on the `iwlist` table: a row without both edges is never kept. */
  lemma IwlistFilter(nets: seq<IwlistScan.IwlistNet>, x: IwlistScan.IwlistNet)
    ensures x in FilterMto(nets, IwlistEdges) <==>
      x in nets && x.fmin.Some? && x.fmax.Some? && x.fmin.value < MtoMax && x.fmax.value > MtoMin
  {
    FilterMembers(nets, IwlistEdges, x);
  }
}

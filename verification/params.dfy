/** The parameter helpers of the service: presence of required names, selection of a
    whitelist, and the all-or-nothing numeric coercion of the selected values. */
module Params {
  import opened Wrappers

  /** A request's parameters as the web framework delivers them: name to raw text. */
  type Params = map<string, string>

  /** Ruby's `Float(...)` applied to one raw text; its grammar is not modelled, so
      every operation takes it as an argument. */
  type Parser<N> = string -> Option<N>

  /** `halt 400`: the only failure this layer produces. */
  datatype BadRequest = BadRequest

  /** `params_include_all`: every listed name is a key of the parameters, checked
      name by name from the left as `all?` does. */
  function IncludeAll(raw: Params, names: seq<string>): (b: bool)
    ensures b <==> forall n :: n in names ==> n in raw
  {
    if |names| == 0 then true
    else
      names[0] in raw && IncludeAll(raw, names[1..])
  }

  /** Supplying more parameters never turns a passing presence check into a failing one. */
  lemma IncludeAllMonotone(raw: Params, more: Params, names: seq<string>)
    requires raw.Keys <= more.Keys
    ensures IncludeAll(raw, names) ==> IncludeAll(more, names)
  {
  }

  /** `params_matching`: the entries whose name is listed, values untouched. */
  function Matching(raw: Params, names: seq<string>): (m: Params)
    ensures forall k :: k in m <==> k in raw && k in names
    ensures forall k :: k in m ==> m[k] == raw[k]
  {
    map k | k in raw && k in names :: raw[k]
  }

  /** The selection never holds a name outside the list and never more than the request. */
  lemma MatchingWithinBounds(raw: Params, names: seq<string>)
    ensures Matching(raw, names).Keys <= raw.Keys
    ensures forall k :: k in Matching(raw, names) ==> k in names
  {
  }

  /** The selection sees only the listed names: two requests that agree on them select
      the same entries, whatever else either carries. */
  lemma MatchingOnlyReadsNames(raw: Params, raw': Params, names: seq<string>)
    requires forall n :: n in names ==> (n in raw <==> n in raw')
    requires forall n :: n in names && n in raw ==> raw[n] == raw'[n]
    ensures Matching(raw, names) == Matching(raw', names)
  {
  }

  /** Adding or replacing an unlisted parameter leaves the selection unchanged. */
  lemma MatchingIgnoresUnlisted(raw: Params, names: seq<string>, x: string, v: string)
    requires x !in names
    ensures Matching(raw[x := v], names) == Matching(raw, names)
  {
  }

  /** `symbolize_and_float`, as a whole: the request is refused unless every value
      parses; otherwise the same names carry the parsed values. */
  function SymbolizeAndFloat<N>(parse: Parser<N>, h: Params): (r: Result<map<string, N>, BadRequest>)
    ensures r.Success? <==> forall k :: k in h ==> parse(h[k]).Some?
    ensures r.Success? ==> r.value.Keys == h.Keys
    ensures r.Success? ==> forall k :: k in h ==> parse(h[k]) == Some(r.value[k])
  {
    if forall k | k in h :: parse(h[k]).Some? then
      Success(map k | k in h :: parse(h[k]).value)
    else
      Failure(BadRequest)
  }

  /** `symbolize_and_float` step by step: the entries are converted one at a time, in
      an order the caller does not choose, and the first value that does not parse
      abandons the partial map. Whatever the order, the outcome is the all-or-nothing
      one of SymbolizeAndFloat. */
  method FloatEach<N>(parse: Parser<N>, h: Params) returns (r: Result<map<string, N>, BadRequest>)
    ensures r == SymbolizeAndFloat(parse, h)
  {
    var todo := h.Keys;
    var done: map<string, N> := map[];
    while todo != {}
      invariant todo <= h.Keys
      invariant done.Keys == h.Keys - todo
      invariant forall k :: k in done ==> parse(h[k]) == Some(done[k])
      decreases todo
    {
      var k :| k in todo;
      match parse(h[k]) {
        case None =>
          return Failure(BadRequest);
        case Some(v) =>
          done := done[k := v];
      }
      todo := todo - {k};
    }
    ghost var spec := SymbolizeAndFloat(parse, h);
    assert spec.value == done;
    return Success(done);
  }
}

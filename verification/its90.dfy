/** The four ITS-90 routes: each one checks and coerces its parameters and, when the
    request is well formed, builds the call handed to the calculation library. The
    library itself is not modelled; a route's response wraps whatever it returns. */
module Its90 {
  import opened Wrappers
  import opened Params

  /** The four operations, one per route `POST /its90/<name>`. */
  datatype Op = Wr | T90r | T90 | Res

  /** The temperature standard every route passes, the symbol `:its90`. */
  const Standard: string := "its90"

  /** The coefficient names the bundle may carry, `rtpw` and `subrange` among them, in the
      order the source lists them. */
  const Whitelist: seq<string> := ["rtpw", "subrange", "a", "b", "c", "d", "w660", "c1", "c2", "c3", "c4", "c5"]

  /** The call shape handed to the library: operation, standard, the primary value and,
      for `t90` and `res` only, the bundle of named coefficients. */
  datatype Call<N> = Call(op: Op, standard: string, primary: N, bundle: Option<map<string, N>>)

  /** Route segment and response key of an operation. */
  function Name(op: Op): string
  {
    match op
    case Wr => "wr"
    case T90r => "t90r"
    case T90 => "t90"
    case Res => "res"
  }

  /** The parameter each operation converts and passes first. */
  function PrimaryKey(op: Op): string
  {
    match op
    case Wr => "t90"
    case T90r => "wr"
    case T90 => "res"
    case Res => "t90"
  }

  /** The operations that pass a bundle of coefficients. */
  predicate Bundled(op: Op)
  {
    op.T90? || op.Res?
  }

  /** The names whose presence a route checks before converting anything. */
  function Required(op: Op): seq<string>
  {
    if Bundled(op) then [PrimaryKey(op), "rtpw", "subrange"] else []
  }

  /** The parameter names a route may look at: its primary one and, for `t90` and
      `res`, the whitelist. */
  predicate Relevant(op: Op, k: string)
  {
    k == PrimaryKey(op) || (Bundled(op) && k in Whitelist)
  }

  /** The helpers `t90`, `wr` and `res`: the named parameter as a number, refused when
      it is absent (`Float(nil)` raises) or does not parse. */
  function Coerce<N>(parse: Parser<N>, raw: Params, key: string): (r: Result<N, BadRequest>)
    ensures r.Success? <==> key in raw && parse(raw[key]).Some?
    ensures r.Success? ==> parse(raw[key]) == Some(r.value)
  {
    if key !in raw then Failure(BadRequest)
    else
      match parse(raw[key])
      case None => Failure(BadRequest)
      case Some(x) => Success(x)
  }

  /** `its90_args`: the whitelisted parameters, every one converted, or a refusal. */
  function Its90Args<N>(parse: Parser<N>, raw: Params): (r: Result<map<string, N>, BadRequest>)
    ensures r.Success? <==> forall k :: k in raw && k in Whitelist ==> parse(raw[k]).Some?
    ensures r.Success? ==> forall k :: k in r.value <==> k in raw && k in Whitelist
    ensures r.Success? ==> forall k :: k in r.value ==> parse(raw[k]) == Some(r.value[k])
  {
    SymbolizeAndFloat(parse, Matching(raw, Whitelist))
  }

  /** The four route bodies, step for step: the presence check of `t90` and `res`,
      then the primary value, then the bundle, then the call. */
  function Handle<N>(parse: Parser<N>, op: Op, raw: Params): (r: Result<Call<N>, BadRequest>)
    ensures r.Success? ==> r.value.op == op && r.value.standard == Standard
  {
    match op
    case Wr =>
      var t90 :- Coerce(parse, raw, "t90");
      Success(Call(Wr, Standard, t90, None))
    case T90r =>
      var wr :- Coerce(parse, raw, "wr");
      Success(Call(T90r, Standard, wr, None))
    case T90 =>
      if !IncludeAll(raw, ["res", "rtpw", "subrange"]) then Failure(BadRequest)
      else
        var res :- Coerce(parse, raw, "res");
        var args :- Its90Args(parse, raw);
        Success(Call(T90, Standard, res, Some(args)))
    case Res =>
      if !IncludeAll(raw, ["t90", "rtpw", "subrange"]) then Failure(BadRequest)
      else
        var t90 :- Coerce(parse, raw, "t90");
        var args :- Its90Args(parse, raw);
        Success(Call(Res, Standard, t90, Some(args)))
  }

  /** `json <name>: result`: a one-entry body keyed by the operation's name. */
  function Respond<R>(op: Op, result: R): (body: map<string, R>)
    ensures body.Keys == {Name(op)}
    ensures body[Name(op)] == result
  {
    map[Name(op) := result]
  }

  /** A whole request: refuse it, or hand the call to the calculation `library` and wrap its
      result unchanged. */
  function Serve<N, R>(parse: Parser<N>, library: Call<N> -> R, op: Op, raw: Params): (r: Result<map<string, R>, BadRequest>)
    ensures r.Success? <==> Handle(parse, op, raw).Success?
  {
    var call :- Handle(parse, op, raw);
    Success(Respond(op, library(call)))
  }

  /** When a request is well formed, independently of how the routes are written:
      the primary parameter is present and parses and, for `t90` and `res`, the
      required names are present and every whitelisted parameter present parses. */
  ghost predicate Acceptable<N>(parse: Parser<N>, op: Op, raw: Params)
  {
    && PrimaryKey(op) in raw
    && parse(raw[PrimaryKey(op)]).Some?
    && (Bundled(op) ==>
         && (forall n :: n in Required(op) ==> n in raw)
         && (forall k :: k in raw && k in Whitelist ==> parse(raw[k]).Some?))
  }

  /** A request is answered with a call exactly when it is well formed. */
  lemma HandleAcceptsExactly<N>(parse: Parser<N>, op: Op, raw: Params)
    ensures Handle(parse, op, raw).Success? <==> Acceptable(parse, op, raw)
  {
  }

  /** The call built for a well-formed request: the standard, the parsed primary value,
      no bundle for `wr` and `t90r`, and for `t90` and `res` a bundle holding exactly
      the whitelisted parameters present, each parsed; it holds `rtpw` and `subrange`
      and never the primary name. */
  lemma HandleCallShape<N>(parse: Parser<N>, op: Op, raw: Params)
    requires Handle(parse, op, raw).Success?
    ensures var c := Handle(parse, op, raw).value;
      && c.op == op
      && c.standard == Standard
      && parse(raw[PrimaryKey(op)]) == Some(c.primary)
      && (c.bundle.Some? <==> Bundled(op))
      && (c.bundle.Some? ==>
           && (forall k :: k in c.bundle.value <==> k in raw && k in Whitelist)
           && (forall k :: k in c.bundle.value ==> parse(raw[k]) == Some(c.bundle.value[k]))
           && "rtpw" in c.bundle.value && "subrange" in c.bundle.value
           && PrimaryKey(op) !in c.bundle.value)
  {
    if Bundled(op) {
      PrimaryNotWhitelisted(op);
      var args := Its90Args(parse, raw);
      assert IncludeAll(raw, Required(op));
      assert "rtpw" in Required(op) && "subrange" in Required(op);
      assert "rtpw" in Whitelist && "subrange" in Whitelist;
      assert args.Success? && Handle(parse, op, raw).value.bundle == Some(args.value);
    }
  }

  /** The primary name of `t90` and `res` is not a coefficient, so it never reaches the bundle. */
  lemma PrimaryNotWhitelisted(op: Op)
    requires Bundled(op)
    ensures PrimaryKey(op) !in Whitelist
  {
  }

  /** Every combination in which some required name is missing is refused, whatever
      the other parameters hold. */
  lemma MissingRequiredRejected<N>(parse: Parser<N>, op: Op, raw: Params, n: string)
    requires n in Required(op) && n !in raw
    ensures Handle(parse, op, raw) == Failure(BadRequest)
  {
  }

  /** An absent or unparseable primary parameter is refused, on every route. */
  lemma PrimaryRejected<N>(parse: Parser<N>, op: Op, raw: Params)
    requires PrimaryKey(op) !in raw || parse(raw[PrimaryKey(op)]).None?
    ensures Handle(parse, op, raw) == Failure(BadRequest)
  {
  }

  /** On `t90` and `res`, any whitelisted parameter that is present but does not parse
      refuses the request, optional coefficients included. */
  lemma UnparseableCoefficientRejected<N>(parse: Parser<N>, op: Op, raw: Params, k: string)
    requires Bundled(op) && k in Whitelist && k in raw && parse(raw[k]).None?
    ensures Handle(parse, op, raw) == Failure(BadRequest)
  {
  }

  /** A route reads nothing outside its relevant names: two requests that agree on
      them get the same answer. */
  lemma HandleOnlyReadsRelevant<N>(parse: Parser<N>, op: Op, raw: Params, raw': Params)
    requires forall k :: Relevant(op, k) ==> (k in raw <==> k in raw')
    requires forall k :: Relevant(op, k) && k in raw ==> raw[k] == raw'[k]
    ensures Handle(parse, op, raw) == Handle(parse, op, raw')
  {
    assert Relevant(op, PrimaryKey(op));
    assert Coerce(parse, raw, PrimaryKey(op)) == Coerce(parse, raw', PrimaryKey(op));
    if Bundled(op) {
      Its90ArgsOnlyReadsWhitelist(parse, raw, raw');
      assert forall n :: n in Required(op) ==> Relevant(op, n);
      assert IncludeAll(raw, Required(op)) == IncludeAll(raw', Required(op));
    }
  }

  /** The bundle sees only whitelisted parameters. */
  lemma Its90ArgsOnlyReadsWhitelist<N>(parse: Parser<N>, raw: Params, raw': Params)
    requires forall k :: k in Whitelist ==> (k in raw <==> k in raw')
    requires forall k :: k in Whitelist && k in raw ==> raw[k] == raw'[k]
    ensures Its90Args(parse, raw) == Its90Args(parse, raw')
  {
    MatchingOnlyReadsNames(raw, raw', Whitelist);
  }

  /** Adding or replacing a parameter a route does not read changes nothing: a success
      stays the same success with the identical call, a refusal stays a refusal. */
  lemma ExtraParameterIgnored<N>(parse: Parser<N>, op: Op, raw: Params, x: string, v: string)
    requires !Relevant(op, x)
    ensures Handle(parse, op, raw[x := v]) == Handle(parse, op, raw)
  {
    HandleOnlyReadsRelevant(parse, op, raw[x := v], raw);
  }

  /** The test suite's "ignores extra arguments", for every route and every request:
      adding a parameter named `extra`, whatever its value, leaves the answer identical. */
  lemma ExtraArgumentIgnored<N>(parse: Parser<N>, op: Op, raw: Params, v: string)
    ensures Handle(parse, op, raw["extra" := v]) == Handle(parse, op, raw)
  {
    assert !Relevant(op, "extra");
    ExtraParameterIgnored(parse, op, raw, "extra", v);
  }

  /** The response: a refusal exactly when the request is refused; otherwise a body with
      the single key named after the operation, holding the library's result for the
      built call unchanged. */
  lemma ServeEnvelope<N, R>(parse: Parser<N>, library: Call<N> -> R, op: Op, raw: Params)
    ensures Serve(parse, library, op, raw).Success? <==> Acceptable(parse, op, raw)
    ensures Serve(parse, library, op, raw).Success? ==>
      var body := Serve(parse, library, op, raw).value;
      body.Keys == {Name(op)} && body[Name(op)] == library(Handle(parse, op, raw).value)
  {
  }
}

/** The request examples of the service's test suite, stated for every parser that reads
    the example texts as the suite expects and for every calculation library. */
module Scenarios {
  import opened Wrappers
  import opened Params
  import opened Its90

  /** `POST /its90/wr` with `t90=0.01`: the library gets `(its90, 0.01)` and the body is
      `{wr: <its result>}`. */
  lemma WrGoodRequest<N, R>(parse: Parser<N>, library: Call<N> -> R, t90: N)
    requires parse("0.01") == Some(t90)
    ensures Handle(parse, Wr, map["t90" := "0.01"]) == Success(Call(Wr, "its90", t90, None))
    ensures Serve(parse, library, Wr, map["t90" := "0.01"])
         == Success(map["wr" := library(Call(Wr, "its90", t90, None))])
  {
  }

  /** `POST /its90/wr` with no parameter, or with a `t90` that does not parse, is refused. */
  lemma WrBadRequests<N>(parse: Parser<N>)
    requires parse("non_numeric").None?
    ensures Handle(parse, Wr, map[]) == Failure(BadRequest)
    ensures Handle(parse, Wr, map["t90" := "non_numeric"]) == Failure(BadRequest)
  {
  }

  /** `POST /its90/t90r` with `wr=1.0` and an extra parameter: the extra one is ignored. */
  lemma T90rIgnoresExtra<N>(parse: Parser<N>, wr: N)
    requires parse("1.0") == Some(wr)
    ensures Handle(parse, T90r, map["wr" := "1.0", "extra" := "argument"])
         == Success(Call(T90r, "its90", wr, None))
  {
  }

  /** A bundle that carries `value` under `key`, whatever else it carries: the
      `hash_including` of the test suite. */
  ghost predicate Carries<N>(bundle: Option<map<string, N>>, key: string, value: N)
  {
    bundle.Some? && key in bundle.value && bundle.value[key] == value
  }

  /** `POST /its90/t90` with `res=26.0, rtpw=25.0, subrange=11`: the library gets
      `(its90, 26.0, {rtpw: 25.0, subrange: 11, ...})`. */
  lemma T90GoodRequest<N>(parse: Parser<N>, raw: Params, res: N, rtpw: N, subrange: N)
    requires raw == map["res" := "26.0", "rtpw" := "25.0", "subrange" := "11"]
    requires parse("26.0") == Some(res) && parse("25.0") == Some(rtpw) && parse("11") == Some(subrange)
    ensures Handle(parse, T90, raw).Success?
    ensures var c := Handle(parse, T90, raw).value;
      && c.op == T90 && c.standard == "its90" && c.primary == res
      && Carries(c.bundle, "rtpw", rtpw) && Carries(c.bundle, "subrange", subrange)
  {
    assert raw["res"] == "26.0" && raw["rtpw"] == "25.0" && raw["subrange"] == "11";
    assert raw.Keys == {"res", "rtpw", "subrange"};
    assert forall k :: k in raw ==> parse(raw[k]).Some?;
    HandleAcceptsExactly(parse, T90, raw);
    HandleCallShape(parse, T90, raw);
  }

  /** `POST /its90/res` with `t90=10.05, rtpw=25.0, subrange=7, a=0.001, b=0.0002`: the
      optional coefficients travel in the bundle beside `rtpw` and `subrange`. */
  lemma ResOptionalCoefficients<N>(parse: Parser<N>, raw: Params, t90: N, rtpw: N, subrange: N, a: N, b: N)
    requires raw == map["t90" := "10.05", "rtpw" := "25.0", "subrange" := "7", "a" := "0.001", "b" := "0.0002"]
    requires parse("10.05") == Some(t90) && parse("25.0") == Some(rtpw) && parse("7") == Some(subrange)
    requires parse("0.001") == Some(a) && parse("0.0002") == Some(b)
    ensures Handle(parse, Res, raw).Success?
    ensures var c := Handle(parse, Res, raw).value;
      && c.op == Res && c.standard == "its90" && c.primary == t90
      && Carries(c.bundle, "rtpw", rtpw) && Carries(c.bundle, "subrange", subrange)
      && Carries(c.bundle, "a", a) && Carries(c.bundle, "b", b)
  {
    assert raw["t90"] == "10.05" && raw["rtpw"] == "25.0" && raw["subrange"] == "7";
    assert raw["a"] == "0.001" && raw["b"] == "0.0002";
    assert raw.Keys == {"t90", "rtpw", "subrange", "a", "b"};
    assert forall k :: k in raw ==> parse(raw[k]).Some?;
    assert "a" in Whitelist && "b" in Whitelist;
    HandleAcceptsExactly(parse, Res, raw);
    HandleCallShape(parse, Res, raw);
  }

  /** `POST /its90/res` with a `t90` that does not parse is refused although the other
      required parameters are fine. */
  lemma ResNonNumericPrimary<N>(parse: Parser<N>)
    requires parse("non-numeric").None?
    ensures Handle(parse, Res, map["t90" := "non-numeric", "rtpw" := "25.0", "subrange" := "11"])
         == Failure(BadRequest)
  {
  }

  /** `POST /its90/t90` with only `rtpw` and `subrange` is refused before anything is
      parsed, whatever the parser says. */
  lemma T90MissingPrimary<N>(parse: Parser<N>)
    ensures Handle(parse, T90, map["rtpw" := "25.0", "subrange" := "11"]) == Failure(BadRequest)
  {
  }
}

/** Namespace Zxdstyle\ElasticSql\Supports: the object a search hands back,
    which reads the search engine's response. `Paginator` extends `Result`
    and only replaces `toArray`; here one class carries the runtime class as
    the constant `isPaginator`. */
module Supports {
  import opened Php
  import opened Exceptions

  // ---------------------------------------------------------------------
  // PHP's checks on declared return types (coercive typing mode)

  /** A value returned from a function declared `: int`: booleans and
      integer numeric strings convert, everything else that is not an integer
      is a TypeError. */
  function IntReturn(v: Value, fn: string): (r: Outcome<int>)
    ensures v.Int? ==> r == Ok(v.i)
    ensures v.Str? && IsIntString(v.s) ==> r == Ok(ParseInt(v.s))
    ensures r.Ok? <==> v.Int? || v.Bool? || (v.Str? && IsIntString(v.s))
    ensures r.Raise? ==> r.ex.TypeError?
  {
    match v
    case Int(i) => Ok(i)
    case Bool(b) => Ok(if b then 1 else 0)
    case Str(t) => if IsIntString(t) then Ok(ParseInt(t)) else Raise(TypeError(fn + "()"))
    case _ => Raise(TypeError(fn + "()"))
  }

  /** A value returned from a function declared `: string`: integers and
      booleans are written out as `(string)` would, null and arrays are a
      TypeError. */
  function StringReturn(v: Value, fn: string): (r: Outcome<string>)
    ensures r.Ok? <==> v.Str? || v.Int? || v.Bool?
    ensures r.Ok? ==> r.value == StringCast(v)
    ensures r.Raise? ==> r.ex.TypeError?
  {
    match v
    case Null => Raise(TypeError(fn + "()"))
    case Arr(_) => Raise(TypeError(fn + "()"))
    case _ => Ok(StringCast(v))
  }

  /** A value returned from a function declared `: array`. */
  function ArrayReturn(v: Value, fn: string): (r: Outcome<seq<Entry>>)
    ensures r.Ok? <==> v.Arr?
    ensures r.Ok? ==> Arr(r.value) == v
    ensures r.Raise? ==> r.ex.TypeError?
  {
    if v.Arr? then Ok(v.entries) else Raise(TypeError(fn + "()"))
  }

  // ---------------------------------------------------------------------
  // Reading hits

  /** formatHit: the hit's `_source` document with `_id` and `_score` written
      over it (array_merge, so those two keys win over same-named fields). */
  function FormatHit(hit: Value): (r: Outcome<seq<Entry>>)
    ensures r.Ok? <==> At(hit, S("_source")).Arr?
    ensures r.Raise? ==> r.ex.TypeError?
  {
    var source := At(hit, S("_source"));
    if !source.Arr? then Raise(TypeError("array_merge()"))
    else Ok(Merge(source.entries, Injected(hit)))
  }

  /** The formatted hit carries the hit's own `_id` and `_score`, whatever
      the document holds under those names. */
  lemma FormatHitInjects(hit: Value)
    ensures FormatHit(hit).Ok? ==> Find(FormatHit(hit).value, S("_id")) == Some(At(hit, S("_id")))
    ensures FormatHit(hit).Ok? ==> Find(FormatHit(hit).value, S("_score")) == Some(At(hit, S("_score")))
  {
    if FormatHit(hit).Ok? {
      var first := MergeInto([], At(hit, S("_source")).entries);
      MergeIntoFindString(first, Injected(hit), "_id");
      MergeIntoFindString(first, Injected(hit), "_score");
    }
  }

  /** The two members formatHit writes over the document. */
  function Injected(hit: Value): seq<Entry> {
    [Entry(S("_id"), At(hit, S("_id"))), Entry(S("_score"), At(hit, S("_score")))]
  }

  /** Every other field of the document comes through formatHit unchanged. */
  lemma FormatHitKeepsSource(hit: Value, s: string)
    requires s != "_id" && s != "_score"
    ensures FormatHit(hit).Ok? && DistinctKeys(At(hit, S("_source")).entries) ==>
      Find(FormatHit(hit).value, S(s)) == Find(At(hit, S("_source")).entries, S(s))
  {
    if FormatHit(hit).Ok? {
      var injected := Injected(hit);
      assert KeysOf(injected) == [S("_id"), S("_score")] by {
        assert injected[1..] == [injected[1]];
      }
      MergeReadsThrough(At(hit, S("_source")).entries, injected);
    }
  }

  /** A string key that the second array does not have reads from the first,
      once both are merged. */
  lemma MergeReadsThrough(a: seq<Entry>, b: seq<Entry>)
    requires DistinctKeys(b)
    ensures DistinctKeys(a) ==>
      forall s :: S(s) !in KeysOf(b) ==> Find(Merge(a, b), S(s)) == Find(a, S(s))
  {
    if DistinctKeys(a) {
      forall s | S(s) !in KeysOf(b)
        ensures Find(Merge(a, b), S(s)) == Find(a, S(s))
      {
        MergeIntoFindString(MergeInto([], a), b, s);
        MergeIntoFindString([], a, s);
      }
    }
  }

  /** What formatHit makes of each hit, in order. */
  function Formats(es: seq<Entry>): (fs: seq<Outcome<seq<Entry>>>)
    ensures |fs| == |es|
    ensures forall j {:trigger FormatHit(es[j].val)} :: 0 <= j < |es| ==> fs[j] == FormatHit(es[j].val)
  {
    seq(|es|, j requires 0 <= j < |es| => FormatHit(es[j].val))
  }

  /** The foreach-by-reference loop of getHits, given what formatting each
      hit yields (`fs`): every hit replaced, keys and order kept; the first
      hit that cannot be formatted stops it. */
  function Collect(es: seq<Entry>, fs: seq<Outcome<seq<Entry>>>): (r: Outcome<seq<Entry>>)
    requires |fs| == |es|
    ensures r.Ok? <==> forall j :: 0 <= j < |es| ==> fs[j].Ok?
    ensures r.Ok? ==> |r.value| == |es| && forall j :: 0 <= j < |es| ==>
      r.value[j] == Entry(es[j].key, Arr(fs[j].value))
  {
    if es == [] then Ok([])
    else match fs[0]
      case Raise(e) => Raise(e)
      case Ok(h) =>
        match Collect(es[1..], fs[1..])
        case Raise(e) =>
          assert forall j :: 0 < j < |es| ==> es[1..][j - 1] == es[j] && fs[1..][j - 1] == fs[j];
          Raise(e)
        case Ok(rest) =>
          assert forall j :: 0 < j < |es| ==> es[1..][j - 1] == es[j] && fs[1..][j - 1] == fs[j];
          Ok([Entry(es[0].key, Arr(h))] + rest)
  }

  /** The loop over the hits as they are. */
  function FormatAll(es: seq<Entry>): Outcome<seq<Entry>> {
    Collect(es, Formats(es))
  }

  /** The loop of getHits: each hit of a copy of the list is replaced by
      its formatted form, in place, until one cannot be formatted. */
  method FormatEach(es: seq<Entry>) returns (r: Outcome<seq<Entry>>)
    ensures r == FormatAll(es)
  {
    ghost var fs := Formats(es);
    var formatted := es;
    var i := 0;
    while i < |formatted|
      invariant i <= |formatted| == |es|
      invariant forall j :: i <= j < |es| ==> formatted[j] == es[j]
      invariant forall j :: 0 <= j < i ==> fs[j].Ok? && formatted[j] == Entry(es[j].key, Arr(fs[j].value))
    {
      var f := FormatHit(formatted[i].val);
      if f.Raise? {
        FirstFailure(es, fs, i);
        return Raise(f.ex);
      }
      formatted := formatted[i := Entry(formatted[i].key, Arr(f.value))];
      i := i + 1;
    }
    AllFormatted(es, fs, formatted);
    r := Ok(formatted);
  }

  /** When every hit formats, the loop's result is the list of formatted hits. */
  lemma AllFormatted(es: seq<Entry>, fs: seq<Outcome<seq<Entry>>>, formatted: seq<Entry>)
    requires |fs| == |es| == |formatted|
    requires forall j :: 0 <= j < |es| ==> fs[j].Ok? && formatted[j] == Entry(es[j].key, Arr(fs[j].value))
    ensures Collect(es, fs) == Ok(formatted)
  {
    assert Collect(es, fs).value == formatted;
  }

  /** getHits on the stored `hits` member. */
  function HitsOf(hits: Value): (r: Outcome<seq<Entry>>)
    ensures r.Ok? <==> At(hits, S("hits")).Arr? && FormatAll(At(hits, S("hits")).entries).Ok?
    ensures r.Ok? ==> KeysOf(r.value) == KeysOf(At(hits, S("hits")).entries)
  {
    var list := At(hits, S("hits"));
    if !list.Arr? then Raise(TypeError("getHits()"))
    else
      FormattedKeys(list.entries);
      FormatAll(list.entries)
  }

  lemma FormattedKeys(es: seq<Entry>)
    ensures FormatAll(es).Ok? ==> KeysOf(FormatAll(es).value) == KeysOf(es)
  {
    if FormatAll(es).Ok? {
      SameKeys(FormatAll(es).value, es);
    }
  }

  lemma {:induction false} SameKeys(a: seq<Entry>, b: seq<Entry>)
    requires |a| == |b| && forall j :: 0 <= j < |a| ==> a[j].key == b[j].key
    ensures KeysOf(a) == KeysOf(b)
  {
    if a != [] {
      SameKeys(a[1..], b[1..]);
    }
  }

  /** getHit: the first hit (`hits.hits[0]`), formatted. */
  function FirstHitOf(hits: Value): (r: Outcome<seq<Entry>>)
    ensures r == FormatHit(At(At(hits, S("hits")), I(0)))
    ensures r.Ok? ==> At(hits, S("hits")).Arr? && I(0) in KeysOf(At(hits, S("hits")).entries)
    ensures r.Ok? <==> At(At(At(hits, S("hits")), I(0)), S("_source")).Arr?
    ensures r.Ok? ==> Find(r.value, S("_id")) == Some(At(At(At(hits, S("hits")), I(0)), S("_id")))
    ensures r.Ok? ==> Find(r.value, S("_score")) == Some(At(At(At(hits, S("hits")), I(0)), S("_score")))
    ensures r.Ok? && DistinctKeys(At(At(At(hits, S("hits")), I(0)), S("_source")).entries) ==>
      forall s :: s != "_id" && s != "_score" ==>
        Find(r.value, S(s)) == Find(At(At(At(hits, S("hits")), I(0)), S("_source")).entries, S(s))
  {
    var first := At(At(hits, S("hits")), I(0));
    FormatHitInjects(first);
    FormatHitKeepsAll(first);
    FormatHit(first)
  }

  /** FormatHitKeepsSource for every field name at once. */
  lemma FormatHitKeepsAll(hit: Value)
    ensures FormatHit(hit).Ok? && DistinctKeys(At(hit, S("_source")).entries) ==>
      forall s :: s != "_id" && s != "_score" ==>
        Find(FormatHit(hit).value, S(s)) == Find(At(hit, S("_source")).entries, S(s))
  {
    forall s | s != "_id" && s != "_score"
      ensures FormatHit(hit).Ok? && DistinctKeys(At(hit, S("_source")).entries) ==>
        Find(FormatHit(hit).value, S(s)) == Find(At(hit, S("_source")).entries, S(s))
    {
      FormatHitKeepsSource(hit, s);
    }
  }

  /** The hit at `i` is the first that cannot be formatted: the loop stops
      with its error. */
  lemma {:induction false} FirstFailure(es: seq<Entry>, fs: seq<Outcome<seq<Entry>>>, i: nat)
    requires |fs| == |es| && i < |es| && fs[i].Raise?
    requires forall j :: 0 <= j < i ==> fs[j].Ok?
    ensures Collect(es, fs) == Raise(fs[i].ex)
    decreases i
  {
    if i > 0 {
      assert fs[1..][i - 1] == fs[i];
      assert forall j :: 0 <= j < i - 1 ==> fs[1..][j] == fs[j + 1];
      FirstFailure(es[1..], fs[1..], i - 1);
    }
  }

  /** getTotalHits: `hits.total` when it is an integer (the old response
      layout), else `hits.total.value` (the layout of Elasticsearch 7). */
  function TotalHitsOf(hits: Value): (r: Outcome<int>)
    ensures At(hits, S("total")).Int? ==> r == Ok(At(hits, S("total")).i)
    ensures !At(hits, S("total")).Int? && At(At(hits, S("total")), S("value")).Int? ==>
      r == Ok(At(At(hits, S("total")), S("value")).i)
    ensures !At(hits, S("total")).Int? && At(At(hits, S("total")), S("value")).Str?
            && IsIntString(At(At(hits, S("total")), S("value")).s) ==>
      r == Ok(ParseInt(At(At(hits, S("total")), S("value")).s))
    ensures r.Raise? <==> (!At(hits, S("total")).Int? && !At(At(hits, S("total")), S("value")).Int?
                           && !At(At(hits, S("total")), S("value")).Bool?
                           && !(At(At(hits, S("total")), S("value")).Str?
                                && IsIntString(At(At(hits, S("total")), S("value")).s)))
    ensures r.Raise? ==> r.ex.TypeError?
  {
    var total := At(hits, S("total"));
    if total.Int? then Ok(total.i) else IntReturn(At(total, S("value")), "getTotalHits")
  }

  /** The listing `Paginator::toArray` builds, members evaluated in the
      order written: took, timed_out, shards, hits, total_hits. */
  function Listing(took: Value, timedOut: Value, shards: Value, hits: Value): (r: Outcome<seq<Entry>>)
    ensures r.Ok? <==> (StringReturn(took, "took").Ok? && ArrayReturn(shards, "getShards").Ok?
                        && HitsOf(hits).Ok? && TotalHitsOf(hits).Ok?)
    ensures r.Raise? && StringReturn(took, "took").Raise? ==> r.ex == StringReturn(took, "took").ex
    ensures r.Ok? ==> r.value == [
      Entry(S("took"), Str(StringCast(took))), Entry(S("timed_out"), Bool(Truthy(timedOut))),
      Entry(S("shards"), shards), Entry(S("hits"), Arr(HitsOf(hits).value)),
      Entry(S("total_hits"), Int(TotalHitsOf(hits).value))]
  {
    match StringReturn(took, "took")
    case Raise(e) => Raise(e)
    case Ok(t) =>
      match ArrayReturn(shards, "getShards")
      case Raise(e) => Raise(e)
      case Ok(sh) =>
        match HitsOf(hits)
        case Raise(e) => Raise(e)
        case Ok(hs) =>
          match TotalHitsOf(hits)
          case Raise(e) => Raise(e)
          case Ok(n) =>
            Ok([Entry(S("took"), Str(t)), Entry(S("timed_out"), Bool(Truthy(timedOut))),
                Entry(S("shards"), Arr(sh)), Entry(S("hits"), Arr(hs)), Entry(S("total_hits"), Int(n))])
  }

  /** The listing has exactly its five keys, in order. */
  lemma ListingKeys(took: Value, timedOut: Value, shards: Value, hits: Value)
    ensures var r := Listing(took, timedOut, shards, hits);
      r.Ok? ==> KeysOf(r.value) == [S("took"), S("timed_out"), S("shards"), S("hits"), S("total_hits")]
  {
    var r := Listing(took, timedOut, shards, hits);
    if r.Ok? {
      KeysAt(r.value);
    }
  }

  /** The members setMeta reads out of a response (`$meta[...] ?? default`). */
  function Member(meta: seq<Entry>, name: string): Value {
    At(Arr(meta), S(name))
  }

  class Result {
    /** The runtime class: a Paginator (from Elastic::get) or a plain Result
        (from Elastic::first). */
    const isPaginator: bool
    var took: Value
    var timedOut: Value
    var shards: Value
    var hits: Value
    var rawResult: Value
    var rawParams: Value
    var aggregations: Value

    /** The state setMeta leaves for response `meta`. */
    ghost predicate Holds(meta: seq<Entry>)
      reads this
    {
      rawResult == Arr(meta)
      && took == Member(meta, "took")
      && timedOut == Member(meta, "timed_out")
      && shards == Member(meta, "_shards")
      && hits == Member(meta, "hits")
      && aggregations == (if Member(meta, "aggregations") == Null then Arr([]) else Member(meta, "aggregations"))
    }

    /** `new Result($meta, $rawParams)`. */
    constructor (meta: seq<Entry>, rawParams: Value)
      ensures !isPaginator && Holds(meta) && this.rawParams == rawParams
      ensures GetRaw() == Arr(meta) && Debug() == rawParams
    {
      isPaginator := false;
      took, timedOut, shards, hits, rawResult, aggregations := Null, Null, Null, Null, Null, Null;
      this.rawParams := Null;
      new;
      SetMeta(meta);
      this.rawParams := rawParams;
    }

    /** `new Paginator($meta, $rawParams)`. */
    constructor Paginator(meta: seq<Entry>, rawParams: Value)
      ensures isPaginator && Holds(meta) && this.rawParams == rawParams
      ensures GetRaw() == Arr(meta) && Debug() == rawParams
    {
      isPaginator := true;
      took, timedOut, shards, hits, rawResult, aggregations := Null, Null, Null, Null, Null, Null;
      this.rawParams := Null;
      new;
      SetMeta(meta);
      this.rawParams := rawParams;
    }

    /** setMeta: absent members read as null, absent aggregations as []. */
    method SetMeta(meta: seq<Entry>)
      modifies this
      ensures Holds(meta) && rawParams == old(rawParams)
      ensures S("took") !in KeysOf(meta) ==> took == Null
      ensures S("timed_out") !in KeysOf(meta) ==> timedOut == Null && !TimedOut()
      ensures S("_shards") !in KeysOf(meta) ==> shards == Null
      ensures S("hits") !in KeysOf(meta) ==> hits == Null
      ensures S("aggregations") !in KeysOf(meta) ==> aggregations == Arr([])
    {
      rawResult := Arr(meta);
      took := Member(meta, "took");
      timedOut := Member(meta, "timed_out");
      shards := Member(meta, "_shards");
      hits := Member(meta, "hits");
      var aggs := Member(meta, "aggregations");
      aggregations := if aggs == Null then Arr([]) else aggs;
    }

    /** getRaw: the whole response setMeta was given. */
    function GetRaw(): (r: Value)
      reads this
      ensures forall meta :: Holds(meta) ==> r == Arr(meta)
    {
      rawResult
    }

    /** debug: the parameters of the request that produced the response. */
    function Debug(): Value
      reads this
    {
      rawParams
    }

    /** getTotalHits */
    function TotalHits(): (r: Outcome<int>)
      reads this
      ensures At(hits, S("total")).Int? ==> r == Ok(At(hits, S("total")).i)
      ensures !At(hits, S("total")).Int? && At(At(hits, S("total")), S("value")).Int? ==>
        r == Ok(At(At(hits, S("total")), S("value")).i)
      ensures !At(hits, S("total")).Int? ==> r == IntReturn(At(At(hits, S("total")), S("value")), "getTotalHits")
      ensures r == TotalHitsOf(hits)
      ensures r.Raise? ==> r.ex.TypeError?
    {
      TotalHitsOf(hits)
    }

    /** getShards */
    function Shards(): (r: Outcome<seq<Entry>>)
      reads this
      ensures r.Ok? <==> shards.Arr?
      ensures r.Ok? ==> Arr(r.value) == shards
      ensures r.Raise? ==> r.ex.TypeError?
    {
      ArrayReturn(shards, "getShards")
    }

    /** took */
    function Took(): (r: Outcome<string>)
      reads this
      ensures took.Str? ==> r == Ok(took.s)
      ensures r.Ok? <==> took.Str? || took.Int? || took.Bool?
      ensures r.Ok? ==> r.value == StringCast(took)
      ensures r.Raise? ==> r.ex.TypeError?
    {
      StringReturn(took, "took")
    }

    /** timedOut: `(bool)` of the stored member. */
    function TimedOut(): (r: bool)
      reads this
      ensures timedOut.Bool? ==> r == timedOut.b
      ensures timedOut == Null ==> !r
      ensures forall meta :: Holds(meta) && S("timed_out") !in KeysOf(meta) ==> !r
    {
      Truthy(timedOut)
    }

    /** getAggregations, declared `?array`. */
    function Aggregations(): (r: Outcome<Value>)
      reads this
      ensures r.Ok? <==> aggregations.Arr? || aggregations == Null
      ensures r.Ok? ==> r.value == aggregations
      ensures r.Raise? ==> r.ex.TypeError?
    {
      if aggregations.Arr? || aggregations == Null then Ok(aggregations)
      else Raise(TypeError("getAggregations()"))
    }

    /** getHits, run as the source runs it. */
    method GetHits() returns (r: Outcome<seq<Entry>>)
      ensures r == HitsOf(hits)
    {
      var list := At(hits, S("hits"));
      if !list.Arr? {
        return Raise(TypeError("getHits()"));
      }
      r := FormatEach(list.entries);
    }

    /** toArray: the first hit for a Result, the listing for a Paginator. */
    function ToArray(): (r: Outcome<seq<Entry>>)
      reads this
      ensures !isPaginator ==> r == FirstHitOf(hits)
      ensures isPaginator ==> r == Listing(took, timedOut, shards, hits)
      // a Result: the first hit's document with its own `_id` and `_score`
      ensures !isPaginator ==> (r.Ok? <==> At(At(At(hits, S("hits")), I(0)), S("_source")).Arr?)
      ensures !isPaginator && r.Ok? ==>
        Find(r.value, S("_id")) == Some(At(At(At(hits, S("hits")), I(0)), S("_id")))
        && Find(r.value, S("_score")) == Some(At(At(At(hits, S("hits")), I(0)), S("_score")))
      // a Paginator: exactly the five listing keys, with the hit count and a boolean timeout
      ensures isPaginator && r.Ok? ==>
        KeysOf(r.value) == [S("took"), S("timed_out"), S("shards"), S("hits"), S("total_hits")]
        && Find(r.value, S("total_hits")) == Some(Int(TotalHitsOf(hits).value))
        && Find(r.value, S("timed_out")) == Some(Bool(TimedOut()))
    {
      ListingKeys(took, timedOut, shards, hits);
      if isPaginator then Listing(took, timedOut, shards, hits) else FirstHitOf(hits)
    }
  }
}

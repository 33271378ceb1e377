/** Namespace Zxdstyle\ElasticSql: the query builder (`Query`), the request
    resolver (`Engine`) and the facade that runs operations (`Elastic`).
    The three classes refer to each other, so they share one module. */
module ElasticSql {
  import opened Php
  import opened Exceptions
  import Supports

  // =====================================================================
  // Query: the builder state

  /** `Query::$operators`: symbolic comparison operators and the names the
      where records store for them. */
  const OPERATORS: seq<Entry> := [
    Entry(S("="), Str("eq")), Entry(S(">"), Str("gt")), Entry(S(">="), Str("gte")),
    Entry(S("<"), Str("lt")), Entry(S("<="), Str("lte")), Entry(S("!="), Str("ne"))]

  /** `$this->operators[$operator]`: an operator the table lacks reads as null. */
  function Lookup(operators: seq<Entry>, op: Value): (r: Value)
    ensures KeyCast(op) !in KeysOf(operators) ==> r == Null
    ensures DistinctKeys(operators) ==>
      forall j :: 0 <= j < |operators| && operators[j].key == KeyCast(op) ==> r == operators[j].val
  {
    FindEach(operators, KeyCast(op));
    At(Arr(operators), KeyCast(op))
  }

  /** In an array with distinct keys, a key reads the value of its slot. */
  lemma FindEach(es: seq<Entry>, k: Key)
    ensures DistinctKeys(es) ==> forall j :: 0 <= j < |es| && es[j].key == k ==> Find(es, k) == Some(es[j].val)
  {
    if DistinctKeys(es) {
      forall j | 0 <= j < |es| && es[j].key == k
        ensures Find(es, k) == Some(es[j].val)
      {
        FindDistinct(es, j);
      }
    }
  }

  /** The table maps the six symbols to their names. */
  lemma OperatorNames()
    ensures Lookup(OPERATORS, Str("=")) == Str("eq") && Lookup(OPERATORS, Str(">")) == Str("gt")
    ensures Lookup(OPERATORS, Str(">=")) == Str("gte") && Lookup(OPERATORS, Str("<")) == Str("lt")
    ensures Lookup(OPERATORS, Str("<=")) == Str("lte") && Lookup(OPERATORS, Str("!=")) == Str("ne")
  {
    assert DistinctKeys(OPERATORS);
    FindDistinct(OPERATORS, 0);
    FindDistinct(OPERATORS, 1);
    FindDistinct(OPERATORS, 2);
    FindDistinct(OPERATORS, 3);
    FindDistinct(OPERATORS, 4);
    FindDistinct(OPERATORS, 5);
  }

  /** Any other operator reads as null from the table. */
  lemma UnknownOperator(op: Value)
    ensures op !in {Str("="), Str(">"), Str(">="), Str("<"), Str("<="), Str("!=")} ==> Lookup(OPERATORS, op) == Null
  {
    assert KeysOf(OPERATORS) == [S("="), S(">"), S(">="), S("<"), S("<="), S("!=")];
  }

  /** `in_array($operator, ['>=', '>', '<=', '<'])` under PHP 8's loose `==`:
      a string equals only itself, `true` equals every non-empty string, and
      null, false, integers and arrays equal none of the four. */
  predicate IsRangeOperator(op: Value) {
    op in {Str(">="), Str(">"), Str("<="), Str("<")} || op == Bool(true)
  }

  /** The list `where` searches for ordering operators. */
  const RANGE_OPERATORS: seq<string> := [">=", ">", "<=", "<"]

  /** `IsRangeOperator` is `in_array` over that list with PHP's loose `==`. */
  lemma RangeOperatorInArray(op: Value)
    ensures forall j :: 0 <= j < |RANGE_OPERATORS| ==> NonNumericLead(RANGE_OPERATORS[j])
    ensures IsRangeOperator(op) <==>
      exists j :: 0 <= j < |RANGE_OPERATORS| && LooseEqualsText(op, RANGE_OPERATORS[j])
  {
    assert NonNumericLead(RANGE_OPERATORS[0]) && NonNumericLead(RANGE_OPERATORS[1]);
    assert NonNumericLead(RANGE_OPERATORS[2]) && NonNumericLead(RANGE_OPERATORS[3]);
    if op.Int? {
      var d := IntToString(op.i);
      assert d[0] == '-' || IsDigit(d[0]) by {
        if op.i < 0 {
          assert d == "-" + NatToString(-op.i);
        } else {
          NatDigits(op.i);
        }
      }
      assert forall j :: 0 <= j < |RANGE_OPERATORS| ==> d != RANGE_OPERATORS[j];
    }
    if op == Bool(true) {
      assert LooseEqualsText(op, RANGE_OPERATORS[0]);
    }
    if op.Str? && IsRangeOperator(op) {
      assert op.s in RANGE_OPERATORS;
      var j :| 0 <= j < |RANGE_OPERATORS| && RANGE_OPERATORS[j] == op.s;
      assert LooseEqualsText(op, RANGE_OPERATORS[j]);
    }
  }

  /** The record `where` appends: `compact('type', 'column', 'leaf', 'value',
      'boolean', 'operator')` with `type` always 'Basic'. */
  datatype WhereClause = WhereClause(column: Value, leaf: string, value: Value, boolean: string, operator: Value)

  function Record(w: WhereClause): Value {
    Arr([Entry(S("type"), Str("Basic")), Entry(S("column"), w.column), Entry(S("leaf"), Str(w.leaf)),
         Entry(S("value"), w.value), Entry(S("boolean"), Str(w.boolean)), Entry(S("operator"), w.operator)])
  }

  /** A range value rewritten as `[$operators['>='] => $v[0],
      $operators['<='] => $v[1]]`. */
  function Bounds(operators: seq<Entry>, v: Value): Value {
    Arr([Entry(KeyCast(Lookup(operators, Str(">="))), At(v, I(0))),
         Entry(KeyCast(Lookup(operators, Str("<="))), At(v, I(1)))])
  }

  /** With the query's table, a range value becomes `{gte: v[0], lte: v[1]}`. */
  lemma RangeBounds(v: Value)
    ensures Bounds(OPERATORS, v) == Arr([Entry(S("gte"), At(v, I(0))), Entry(S("lte"), At(v, I(1)))])
  {
    OperatorNames();
  }

  /** The arguments of `where` that the caller did not pass hold their
      declared defaults; `argc` is `func_num_args()`. */
  predicate Defaults(argc: nat, operator: Value, value: Value, leaf: string, boolean: string) {
    1 <= argc
    && (argc < 2 ==> operator == Null)
    && (argc < 3 ==> value == Null)
    && (argc < 4 ==> leaf == "term")
    && (argc < 5 ==> boolean == "and")
  }

  /** The record `where` builds from its arguments, `operators` being the
      query's operator table. */
  function NormalizeWhere(operators: seq<Entry>, argc: nat, column: Value, operator: Value, value: Value,
                          leaf: string, boolean: string): (w: WhereClause)
    requires Defaults(argc, operator, value, leaf, boolean)
    ensures w.column == column && w.boolean == boolean
    // where($column, $value): the second argument is the value, compared with '='
    ensures argc == 2 ==> w == WhereClause(column, "term", operator, "and", Lookup(operators, Str("=")))
    // an array in the operator slot is the value; the stored operator is null
    ensures argc != 2 && operator.Arr? ==>
      w.operator == Null && w.leaf == leaf
      && w.value == (if leaf == "range" then Bounds(operators, operator) else operator)
    // an ordering operator forces the range leaf, whatever leaf was passed
    ensures argc != 2 && IsRangeOperator(operator) ==>
      w.leaf == "range" && w.operator == Lookup(operators, operator)
      && w.value == (if value.Arr? then Bounds(operators, value) else value)
    // any other operator is looked up in the table when it is truthy
    ensures argc != 2 && !operator.Arr? && !IsRangeOperator(operator) ==>
      w.leaf == leaf && w.operator == (if Truthy(operator) then Lookup(operators, operator) else operator)
      && w.value == (if value.Arr? && leaf == "range" then Bounds(operators, value) else value)
  {
    var v1 := if argc == 2 then operator else value;
    var op1 := if argc == 2 then Str("=") else operator;
    var v2 := if op1.Arr? then op1 else v1;
    var op2 := if op1.Arr? then Null else op1;
    var leaf3 := if IsRangeOperator(op2) then "range" else leaf;
    var v4 := if v2.Arr? && leaf3 == "range" then Bounds(operators, v2) else v2;
    var op5 := if Truthy(op2) then Lookup(operators, op2) else op2;
    WhereClause(column, leaf3, v4, boolean, op5)
  }

  /** `where($column, $value)` with the query's table: an 'eq' term on the value. */
  lemma WhereTwoArguments(column: Value, value: Value)
    ensures NormalizeWhere(OPERATORS, 2, column, value, Null, "term", "and")
         == WhereClause(column, "term", value, "and", Str("eq"))
  {
    OperatorNames();
  }

  /** With the query's table, an ordering operator is stored by its name and
      a `[low, high]` value as `{gte: low, lte: high}`. */
  lemma WhereRange(argc: nat, column: Value, operator: Value, value: Value, leaf: string, boolean: string)
    requires Defaults(argc, operator, value, leaf, boolean) && argc != 2
    requires operator in {Str(">="), Str(">"), Str("<="), Str("<")}
    ensures var w := NormalizeWhere(OPERATORS, argc, column, operator, value, leaf, boolean);
      w.leaf == "range" && w.operator.Str? && w.operator.s in ["gte", "gt", "lte", "lt"]
      && (value.Arr? ==> w.value == Arr([Entry(S("gte"), At(value, I(0))), Entry(S("lte"), At(value, I(1)))]))
  {
    OperatorNames();
    RangeBounds(value);
  }

  /** `$a[] = $x` on whatever `$a` holds: null and false become a new array,
      an array gets one more slot, any other scalar is an error. */
  function AppendTo(v: Value, x: Value): (r: Outcome<Value>)
    ensures r.Ok? <==> v.Arr? || v == Null || v == Bool(false)
    ensures r.Ok? ==> (r.value.Arr? && |r.value.entries| == |EntriesOf(v)| + 1
                       && r.value.entries[..|EntriesOf(v)|] == EntriesOf(v)
                       && r.value.entries[|EntriesOf(v)|].val == x)
  {
    match v
    case Arr(es) => Ok(Arr(Append(es, x)))
    case Null => Ok(Arr([Entry(I(0), x)]))
    case Bool(b) =>
      if b then Raise(PhpError("Cannot use a scalar value as an array")) else Ok(Arr([Entry(I(0), x)]))
    case Str(_) => Raise(PhpError("[] operator not supported for strings"))
    case Int(_) => Raise(PhpError("Cannot use a scalar value as an array"))
  }

  function EntriesOf(v: Value): seq<Entry> {
    if v.Arr? then v.entries else []
  }

  /** The Elasticsearch client object a query carries; what it does is the
      `Transport` function each operation is given. */
  class Client {
    constructor ()
    {
    }
  }

  /** A property as `Query::get` returns it. */
  datatype Prop = Data(v: Value) | EngineRef(engine: Engine) | ClientRef(client: Client)

  /** The properties `Query` declares (`property_exists`). */
  const PROPERTIES: set<string> :=
    {"engine", "client", "index", "type", "limit", "offset", "wheres", "columns", "orders", "aggs", "operators"}

  function InvalidParameter(name: string): Exception {
    InvalidArgument("Passed parameter [" + name + "] is invalid")
  }

  /** What the source ever stores with `set`: the engine and the client under
      their own names, data under every other declared name but `operators`
      (which no caller sets), and anything under an undeclared name (which is
      refused). */
  predicate Fits(name: string, arg: Prop) {
    if name == "engine" then arg.EngineRef?
    else if name == "client" then arg.ClientRef?
    else name != "operators" && arg.Data?
  }

  class Query {
    /** `$operators`, which nothing ever assigns. */
    const operators: seq<Entry>
    var engine: Engine
    var client: Client
    var index: Value
    /** The property `type`. */
    var docType: Value
    var limit: Value
    var offset: Value
    var wheres: Value
    var columns: Value
    var orders: Value
    var aggs: Value

    /** The state of a query nothing has been added to. */
    ghost predicate Cleared()
      reads this
    {
      limit == Null && offset == Null
      && wheres == Arr([]) && columns == Arr([]) && orders == Arr([]) && aggs == Arr([])
    }

    /** `new Query($engine, $client)`; the two `set` calls cannot fail. */
    constructor (engine: Engine, client: Client)
      ensures this.engine == engine && this.client == client
      ensures index == Null && docType == Null && Cleared() && operators == OPERATORS
    {
      operators := OPERATORS;
      this.engine := engine;
      this.client := client;
      index, docType, limit, offset := Null, Null, Null, Null;
      wheres, columns, orders, aggs := Arr([]), Arr([]), Arr([]), Arr([]);
    }

    /** `get($name)`: a declared property, or InvalidArgumentException. */
    function Get(name: string): (r: Outcome<Prop>)
      reads this
      ensures r.Raise? <==> name !in PROPERTIES
      ensures r.Raise? ==> r.ex == InvalidParameter(name)
      ensures name == "engine" ==> r == Ok(EngineRef(engine))
      ensures name == "client" ==> r == Ok(ClientRef(client))
      ensures name in PROPERTIES - {"engine", "client"} ==> r.Ok? && r.value.Data?
      ensures name == "index" ==> r == Ok(Data(index))
      ensures name == "type" ==> r == Ok(Data(docType))
      ensures name == "limit" ==> r == Ok(Data(limit))
      ensures name == "offset" ==> r == Ok(Data(offset))
      ensures name == "wheres" ==> r == Ok(Data(wheres))
      ensures name == "columns" ==> r == Ok(Data(columns))
      ensures name == "orders" ==> r == Ok(Data(orders))
      ensures name == "aggs" ==> r == Ok(Data(aggs))
      ensures name == "operators" ==> r == Ok(Data(Arr(operators)))
    {
      if name == "engine" then Ok(EngineRef(engine))
      else if name == "client" then Ok(ClientRef(client))
      else if name == "index" then Ok(Data(index))
      else if name == "type" then Ok(Data(docType))
      else if name == "limit" then Ok(Data(limit))
      else if name == "offset" then Ok(Data(offset))
      else if name == "wheres" then Ok(Data(wheres))
      else if name == "columns" then Ok(Data(columns))
      else if name == "orders" then Ok(Data(orders))
      else if name == "aggs" then Ok(Data(aggs))
      else if name == "operators" then Ok(Data(Arr(operators)))
      else Raise(InvalidParameter(name))
    }

    /** `set($name, $argument)`: stores into the named property only. */
    method Set(name: string, arg: Prop) returns (r: Outcome<()>)
      requires Fits(name, arg)
      modifies this
      ensures r.Raise? <==> name !in PROPERTIES
      ensures r.Raise? ==> r.ex == InvalidParameter(name) && unchanged(this)
      ensures r.Ok? ==> Get(name) == Ok(arg)
      ensures forall n :: n != name ==> Get(n) == old(Get(n))
    {
      if name !in PROPERTIES {
        return Raise(InvalidParameter(name));
      }
      if name == "engine" {
        engine := arg.engine;
      } else if name == "client" {
        client := arg.client;
      } else if name == "index" {
        index := arg.v;
      } else if name == "type" {
        docType := arg.v;
      } else if name == "limit" {
        limit := arg.v;
      } else if name == "offset" {
        offset := arg.v;
      } else if name == "wheres" {
        wheres := arg.v;
      } else if name == "columns" {
        columns := arg.v;
      } else if name == "orders" {
        orders := arg.v;
      } else {
        aggs := arg.v;
      }
      r := Ok(());
    }

    /** `index($index)`. */
    method Index(s: string)
      modifies this
      ensures index == Str(s)
      ensures engine == old(engine) && client == old(client) && docType == old(docType)
      ensures limit == old(limit) && offset == old(offset) && wheres == old(wheres)
      ensures columns == old(columns) && orders == old(orders) && aggs == old(aggs)
    {
      var _ := Set("index", Data(Str(s)));
      assert Get("engine") == old(Get("engine"));
      assert Get("client") == old(Get("client"));
      assert Get("type") == old(Get("type"));
      assert Get("limit") == old(Get("limit"));
      assert Get("offset") == old(Get("offset"));
      assert Get("wheres") == old(Get("wheres"));
      assert Get("columns") == old(Get("columns"));
      assert Get("orders") == old(Get("orders"));
      assert Get("aggs") == old(Get("aggs"));
    }

    /** `type($type)`. */
    method Type(s: string)
      modifies this
      ensures docType == Str(s)
      ensures engine == old(engine) && client == old(client) && index == old(index)
      ensures limit == old(limit) && offset == old(offset) && wheres == old(wheres)
      ensures columns == old(columns) && orders == old(orders) && aggs == old(aggs)
    {
      var _ := Set("type", Data(Str(s)));
      assert Get("engine") == old(Get("engine"));
      assert Get("client") == old(Get("client"));
      assert Get("index") == old(Get("index"));
      assert Get("limit") == old(Get("limit"));
      assert Get("offset") == old(Get("offset"));
      assert Get("wheres") == old(Get("wheres"));
      assert Get("columns") == old(Get("columns"));
      assert Get("orders") == old(Get("orders"));
      assert Get("aggs") == old(Get("aggs"));
    }

    /** `limit($limit)`. */
    method Limit(n: int)
      modifies this
      ensures limit == Int(n)
      ensures engine == old(engine) && client == old(client) && index == old(index)
      ensures docType == old(docType) && offset == old(offset) && wheres == old(wheres)
      ensures columns == old(columns) && orders == old(orders) && aggs == old(aggs)
    {
      var _ := Set("limit", Data(Int(n)));
      assert Get("engine") == old(Get("engine"));
      assert Get("client") == old(Get("client"));
      assert Get("index") == old(Get("index"));
      assert Get("type") == old(Get("type"));
      assert Get("offset") == old(Get("offset"));
      assert Get("wheres") == old(Get("wheres"));
      assert Get("columns") == old(Get("columns"));
      assert Get("orders") == old(Get("orders"));
      assert Get("aggs") == old(Get("aggs"));
    }

    /** `where(...)`, run step by step as the source runs it: the argument
        juggling, then one record appended to `wheres`. */
    method Where(argc: nat, column: Value, operator: Value, value: Value, leaf: string, boolean: string)
      returns (r: Outcome<()>)
      requires Defaults(argc, operator, value, leaf, boolean)
      modifies this
      ensures var appended := AppendTo(old(wheres), Record(NormalizeWhere(operators, argc, column, operator, value, leaf, boolean)));
        (r.Ok? <==> appended.Ok?)
        && (appended.Ok? ==> wheres == appended.value)
        && (appended.Raise? ==> r == Raise(appended.ex) && wheres == old(wheres))
      ensures engine == old(engine) && client == old(client) && index == old(index) && docType == old(docType)
      ensures limit == old(limit) && offset == old(offset)
      ensures columns == old(columns) && orders == old(orders) && aggs == old(aggs)
    {
      var op, val, lf := operator, value, leaf;
      if argc == 2 {
        val, op := op, Str("=");
      }
      if op.Arr? {
        val, op := op, Null;
      }
      if IsRangeOperator(op) {
        lf := "range";
      }
      if val.Arr? && lf == "range" {
        val := Bounds(operators, val);
      }
      op := if Truthy(op) then Lookup(operators, op) else op;
      var appended := AppendTo(wheres, Record(WhereClause(column, lf, val, boolean, op)));
      if appended.Raise? {
        return Raise(appended.ex);
      }
      wheres := appended.value;
      r := Ok(());
    }

    /** Whether this query is what `newQuery` makes of `src`: same engine
        and client, index and type string-cast, everything else cleared. */
    ghost predicate IsResetOf(src: Query)
      reads this, src
    {
      engine == src.engine && client == src.client
      && index == Str(StringCast(src.index)) && docType == Str(StringCast(src.docType))
      && operators == OPERATORS && Cleared()
    }

    /** `newQuery()`. */
    method NewQuery() returns (q: Query)
      ensures fresh(q) && q.IsResetOf(this)
    {
      q := new Query(engine, client);
      q.Index(StringCast(index));
      q.Type(StringCast(docType));
    }
  }

  // =====================================================================
  // Engine: from query state to request parameters

  /** `Engine::$attributes`: wire key → query aspect, in walking order. The
      entry written without a key ('aggs') has the integer key 0. */
  const ATTRIBUTES: seq<(Key, string)> := [
    (S("_source"), "columns"), (S("query"), "wheres"), (I(0), "aggs"), (S("sort"), "orders"),
    (S("size"), "limit"), (S("from"), "offset"), (S("index"), "index"), (S("type"), "type"),
    (S("scroll"), "scroll")]

  /** `is_numeric($key) ? $attribute : $key`: where entry `t` is stored. */
  function WireKey(t: nat): Key
    requires t < |ATTRIBUTES|
  {
    if ATTRIBUTES[t].0.I? then S(ATTRIBUTES[t].1) else ATTRIBUTES[t].0
  }

  /** The position of wire key `k` in the table, |ATTRIBUTES| if none. */
  function Rank(k: Key): nat {
    RankFrom(k, 0)
  }

  function RankFrom(k: Key, t: nat): (r: nat)
    requires t <= |ATTRIBUTES|
    ensures t <= r <= |ATTRIBUTES|
    ensures r < |ATTRIBUTES| ==> WireKey(r) == k
    decreases |ATTRIBUTES| - t
  {
    if t == |ATTRIBUTES| then t
    else if WireKey(t) == k then t
    else RankFrom(k, t + 1)
  }

  /** The table's wire keys are all strings and all different. */
  lemma WireKeys()
    ensures forall t :: 0 <= t < |ATTRIBUTES| ==> WireKey(t).S?
    ensures forall t, u :: 0 <= t < u < |ATTRIBUTES| ==> WireKey(t) != WireKey(u)
    // the one entry written without a key is stored under its attribute name
    ensures forall t :: 0 <= t < |ATTRIBUTES| && ATTRIBUTES[t].0.I? ==> t == 2
    ensures WireKey(2) == S("aggs")
  {
    assert WireKey(0) == S("_source") && WireKey(1) == S("query") && WireKey(2) == S("aggs");
    assert WireKey(3) == S("sort") && WireKey(4) == S("size") && WireKey(5) == S("from");
    assert WireKey(6) == S("index") && WireKey(7) == S("type") && WireKey(8) == S("scroll");
  }

  lemma {:induction false} RankOfWireKey(t: nat, u: nat)
    requires u <= t < |ATTRIBUTES|
    ensures RankFrom(WireKey(t), u) == t
    decreases t - u
  {
    WireKeys();
    if u < t {
      RankOfWireKey(t, u + 1);
    }
  }

  /** A step of the resolver's walk over one table entry. */
  datatype Step = Skip | Emit(v: Value) | Fail(ex: Exception)

  function Emitted(s: Step): Option<Value> {
    if s.Emit? then Some(s.v) else None
  }

  /** The value a looked-up property carries. The two object properties are
      not in the table, so the walk never meets them. */
  function Payload(p: Prop): Value {
    if p.Data? then p.v else Null
  }

  /** Whether `body` holds only wire keys of entries before `t`, in table order. */
  ghost predicate Ranked(body: seq<Entry>, t: nat) {
    (forall j :: 0 <= j < |body| ==> Rank(body[j].key) < t)
    && (forall i, j :: 0 <= i < j < |body| ==> Rank(body[i].key) < Rank(body[j].key))
  }

  /** The resolver's walk over the table from entry `t` on, given what each
      entry's pass yields (`steps`) and the `body` built so far. */
  function Walk(steps: seq<Step>, t: nat, body: seq<Entry>): Outcome<seq<Entry>>
    requires |steps| == |ATTRIBUTES| && t <= |steps|
    decreases |steps| - t
  {
    if t == |steps| then Ok(body)
    else match steps[t]
      case Skip => Walk(steps, t + 1, body)
      case Emit(c) => Walk(steps, t + 1, Put(body, WireKey(t), c))
      case Fail(e) => Raise(e)
  }

  /** Entry `t`'s wire key is new to a body ranked before `t`, and appending
      it keeps the body ranked. */
  lemma RankedExtend(body: seq<Entry>, t: nat, c: Value)
    requires t < |ATTRIBUTES| && Ranked(body, t)
    ensures WireKey(t) !in KeysOf(body)
    ensures Ranked(body + [Entry(WireKey(t), c)], t + 1)
  {
    var k := WireKey(t);
    RankOfWireKey(t, 0);
    KeysIndex(body, k);
    var body' := body + [Entry(k, c)];
    assert forall j :: 0 <= j < |body| ==> body'[j] == body[j];
  }

  /** The walk keeps table order: each key it adds comes after those before. */
  lemma {:induction false} WalkRanked(steps: seq<Step>, t: nat, body: seq<Entry>)
    requires |steps| == |ATTRIBUTES| && t <= |steps| && Ranked(body, t)
    ensures Walk(steps, t, body).Ok? ==> Ranked(Walk(steps, t, body).value, |ATTRIBUTES|)
    decreases |steps| - t
  {
    if t < |steps| {
      match steps[t]
      case Skip =>
        WalkRanked(steps, t + 1, body);
      case Emit(c) =>
        RankedExtend(body, t, c);
        PutNew(body, WireKey(t), c);
        WalkRanked(steps, t + 1, Put(body, WireKey(t), c));
      case Fail(_) =>
    }
  }

  /** The walk stores under each later wire key exactly what that entry
      emitted, and leaves the keys of earlier entries as they were. */
  lemma {:induction false} WalkStores(steps: seq<Step>, t: nat, body: seq<Entry>)
    requires |steps| == |ATTRIBUTES| && t <= |steps|
    requires forall u :: t <= u < |ATTRIBUTES| ==> Find(body, WireKey(u)) == None
    ensures Walk(steps, t, body).Ok? ==> forall u :: t <= u < |ATTRIBUTES| ==>
      Find(Walk(steps, t, body).value, WireKey(u)) == Emitted(steps[u])
    ensures Walk(steps, t, body).Ok? ==> forall u :: 0 <= u < t ==>
      Find(Walk(steps, t, body).value, WireKey(u)) == Find(body, WireKey(u))
    decreases |steps| - t
  {
    if t < |steps| {
      WireKeys();
      match steps[t]
      case Skip =>
        WalkStores(steps, t + 1, body);
      case Emit(c) =>
        WalkStores(steps, t + 1, Put(body, WireKey(t), c));
      case Fail(_) =>
    }
  }

  /** A walk that returns met no failing entry. */
  lemma {:induction false} WalkOk(steps: seq<Step>, t: nat, body: seq<Entry>)
    requires |steps| == |ATTRIBUTES| && t <= |steps|
    ensures Walk(steps, t, body).Ok? ==> forall u :: t <= u < |steps| ==> !steps[u].Fail?
    decreases |steps| - t
  {
    if t < |steps| && !steps[t].Fail? {
      var next := if steps[t].Emit? then Put(body, WireKey(t), steps[t].v) else body;
      WalkOk(steps, t + 1, next);
    }
  }

  /** A walk that throws throws the exception of the first failing entry. */
  lemma {:induction false} WalkFails(steps: seq<Step>, t: nat, body: seq<Entry>)
    requires |steps| == |ATTRIBUTES| && t <= |steps|
    ensures Walk(steps, t, body).Raise? ==>
      exists u :: (t <= u < |steps| && steps[u] == Fail(Walk(steps, t, body).ex)
                   && forall w :: t <= w < u ==> !steps[w].Fail?)
    decreases |steps| - t
  {
    if t < |steps| {
      if steps[t].Fail? {
        assert steps[t] == Fail(Walk(steps, t, body).ex);
      } else {
        var next := if steps[t].Emit? then Put(body, WireKey(t), steps[t].v) else body;
        WalkFails(steps, t + 1, next);
        if Walk(steps, t + 1, next).Raise? {
          var u :| t + 1 <= u < |steps| && steps[u] == Fail(Walk(steps, t + 1, next).ex)
            && forall w :: t + 1 <= w < u ==> !steps[w].Fail?;
          assert forall w :: t <= w < u ==> !steps[w].Fail?;
        }
      }
    }
  }

  /** Keys outside the table never clash with the keys of a walked body. */
  lemma {:induction false} HeadDisjoint(head: seq<Entry>, body: seq<Entry>)
    requires forall j :: 0 <= j < |head| ==> Rank(head[j].key) == |ATTRIBUTES|
    requires Ranked(body, |ATTRIBUTES|)
    ensures forall j :: 0 <= j < |body| ==> body[j].key !in KeysOf(head)
  {
    forall j | 0 <= j < |body| ensures body[j].key !in KeysOf(head) {
      KeysIndex(head, body[j].key);
    }
  }

  /** Merging an id/body head with a walked body lays them end to end. */
  lemma Shaped(head: seq<Entry>, body: seq<Entry>)
    requires 1 <= |head| <= 2 && head[0].key == S("id") && (|head| == 2 ==> head[1].key == S("body"))
    requires Ranked(body, |ATTRIBUTES|) && StringKeys(body) && DistinctKeys(body)
    ensures Merge(head, body) == head + body
  {
    RankOfNonWire(S("id"));
    RankOfNonWire(S("body"));
    HeadDisjoint(head, body);
    MergeDisjoint(head, body);
  }

  lemma RankOfNonWire(k: Key)
    requires k == S("id") || k == S("body")
    ensures Rank(k) == |ATTRIBUTES|
  {
    WireKeys();
    assert WireKey(0) == S("_source") && WireKey(1) == S("query") && WireKey(2) == S("aggs");
    assert WireKey(3) == S("sort") && WireKey(4) == S("size") && WireKey(5) == S("from");
    assert WireKey(6) == S("index") && WireKey(7) == S("type") && WireKey(8) == S("scroll");
  }

  class Engine {
    /** The aspect compilers `resolveColumns`, `resolveWheres`, `resolveAggs`,
        `resolveOrders`, `resolveLimit`, `resolveOffset` and `resolveScroll`,
        by attribute name. Their code is not part of this model. */
    const compileAspect: (string, Value) -> Outcome<Value>

    constructor (compileAspect: (string, Value) -> Outcome<Value>)
      ensures this.compileAspect == compileAspect
    {
      this.compileAspect := compileAspect;
    }

    /** `resolveIndex($query)`: the stored index, unchanged. */
    function ResolveIndex(q: Query): (r: Value)
      reads q
      ensures r == q.index
    {
      q.Get("index").value.v
    }

    /** `resolveType($query)`: the stored type, unchanged. */
    function ResolveType(q: Query): (r: Value)
      reads q
      ensures r == q.docType
    {
      q.Get("type").value.v
    }

    /** `$this->{'resolve'.ucfirst($attribute)}($query, $val)`: `index` and
        `type` go to resolveIndex and resolveType, which ignore the value;
        every other attribute goes to its aspect compiler. */
    function Compile(q: Query, attribute: string, v: Value): (r: Outcome<Value>)
      reads q
      ensures attribute == "index" ==> r == Ok(q.index)
      ensures attribute == "type" ==> r == Ok(q.docType)
      ensures attribute !in {"index", "type"} ==> r == compileAspect(attribute, v)
    {
      if attribute == "index" then Ok(ResolveIndex(q))
      else if attribute == "type" then Ok(ResolveType(q))
      else compileAspect(attribute, v)
    }

    /** One pass of the foreach loop in `resolve`, over table entry `t`. */
    function Aspect(q: Query, t: nat): (s: Step)
      requires t < |ATTRIBUTES|
      reads q
      // a lookup that throws (get() only throws InvalidArgumentException) is skipped
      ensures q.Get(ATTRIBUTES[t].1).Raise? ==> s == Skip
      // an empty value is skipped
      ensures q.Get(ATTRIBUTES[t].1).Ok? && !Truthy(Payload(q.Get(ATTRIBUTES[t].1).value)) ==> s == Skip
      // a value is the compiler's result for the non-empty stored value
      ensures s.Emit? ==> (q.Get(ATTRIBUTES[t].1).Ok?
                           && Truthy(Payload(q.Get(ATTRIBUTES[t].1).value))
                           && Compile(q, ATTRIBUTES[t].1, Payload(q.Get(ATTRIBUTES[t].1).value)) == Ok(s.v))
      // only an exception that is not an ElasticException escapes
      ensures s.Fail? ==> (!s.ex.IsElastic()
                           && Compile(q, ATTRIBUTES[t].1, Payload(q.Get(ATTRIBUTES[t].1).value)) == Raise(s.ex))
      // a non-empty value whose compiler returns is emitted
      ensures (q.Get(ATTRIBUTES[t].1).Ok? && Truthy(Payload(q.Get(ATTRIBUTES[t].1).value))
               && Compile(q, ATTRIBUTES[t].1, Payload(q.Get(ATTRIBUTES[t].1).value)).Ok?) ==>
        s == Emit(Compile(q, ATTRIBUTES[t].1, Payload(q.Get(ATTRIBUTES[t].1).value)).value)
      // a compiler's ElasticException skips the entry, any other exception fails it
      ensures (q.Get(ATTRIBUTES[t].1).Ok? && Truthy(Payload(q.Get(ATTRIBUTES[t].1).value))
               && Compile(q, ATTRIBUTES[t].1, Payload(q.Get(ATTRIBUTES[t].1).value)).Raise?) ==>
        s == (var e := Compile(q, ATTRIBUTES[t].1, Payload(q.Get(ATTRIBUTES[t].1).value)).ex;
              if e.IsElastic() then Skip else Fail(e))
    {
      var attribute := ATTRIBUTES[t].1;
      match q.Get(attribute)
      case Raise(_) => Skip  // get() throws only InvalidArgumentException
      case Ok(p) =>
        var v := Payload(p);
        if !Truthy(v) then Skip
        else match Compile(q, attribute, v)
          case Ok(c) => Emit(c)
          case Raise(e) => if e.IsElastic() then Skip else Fail(e)
    }

    /** What each pass of the loop yields, entry by entry. */
    function Steps(q: Query): (s: seq<Step>)
      reads q
      ensures |s| == |ATTRIBUTES| && forall t :: 0 <= t < |ATTRIBUTES| ==> s[t] == Aspect(q, t)
    {
      seq(|ATTRIBUTES|, t requires 0 <= t < |ATTRIBUTES| reads q => Aspect(q, t))
    }

    /** What `resolve($query)` returns or throws. */
    function Resolution(q: Query): Outcome<seq<Entry>>
      reads q
    {
      Walk(Steps(q), 0, [])
    }

    /** `resolve($query)`, run as the source runs it. */
    method Resolve(q: Query) returns (r: Outcome<seq<Entry>>)
      ensures r == Resolution(q)
    {
      var body: seq<Entry> := [];
      var t := 0;
      while t < |ATTRIBUTES|
        invariant t <= |ATTRIBUTES|
        invariant Walk(Steps(q), t, body) == Resolution(q)
      {
        var attribute := ATTRIBUTES[t].1;
        var got := q.Get(attribute);
        if got.Raise? {
          // an InvalidArgumentException, caught as an ElasticException
          t := t + 1;
          continue;
        }
        var v := Payload(got.value);
        if !Truthy(v) {
          t := t + 1;
          continue;
        }
        var compiled := Compile(q, attribute, v);
        if compiled.Raise? {
          if !compiled.ex.IsElastic() {
            return Raise(compiled.ex);
          }
          t := t + 1;
          continue;
        }
        body := Put(body, WireKey(t), compiled.value);
        t := t + 1;
      }
      r := Ok(body);
    }

    /** resolve's result: table order, and under each wire key exactly what
        the walk emitted for its entry (an omitted key for a skipped one). */
    lemma ResolutionShape(q: Query)
      ensures Resolution(q).Ok? ==> Ranked(Resolution(q).value, |ATTRIBUTES|)
      ensures Resolution(q).Ok? ==> forall t :: 0 <= t < |ATTRIBUTES| ==>
        Find(Resolution(q).value, WireKey(t)) == Emitted(Aspect(q, t))
    {
      WalkRanked(Steps(q), 0, []);
      WalkStores(Steps(q), 0, []);
    }

    /** resolve's result has string keys only, each at most once. */
    lemma ResolvedKeys(q: Query)
      ensures Resolution(q).Ok? ==> StringKeys(Resolution(q).value) && DistinctKeys(Resolution(q).value)
    {
      ResolutionShape(q);
      WireKeys();
    }

    /** resolve throws exactly when some aspect throws something other than
        an ElasticException, and then it throws the first such exception. */
    lemma ResolutionFails(q: Query)
      ensures Resolution(q).Raise? <==> exists t :: 0 <= t < |ATTRIBUTES| && Aspect(q, t).Fail?
      ensures Resolution(q).Raise? ==>
        exists t :: (0 <= t < |ATTRIBUTES| && Aspect(q, t) == Fail(Resolution(q).ex)
                     && forall u :: 0 <= u < t ==> !Aspect(q, u).Fail?)
    {
      WalkOk(Steps(q), 0, []);
      WalkFails(Steps(q), 0, []);
    }

    /** `get('scroll')` throws (Query declares no such property), so a
        request never carries a scroll key. */
    lemma ScrollNeverSent(q: Query)
      ensures Aspect(q, 8) == Skip
      ensures Resolution(q).Ok? ==> S("scroll") !in KeysOf(Resolution(q).value)
    {
      ResolutionShape(q);
      assert WireKey(8) == S("scroll");
    }

    /** The request's `index` is the stored index when it is not empty, and
        absent otherwise. */
    lemma ResolvedIndex(q: Query)
      ensures Resolution(q).Ok? ==>
        Find(Resolution(q).value, S("index")) == if Truthy(q.index) then Some(q.index) else None
    {
      ResolutionShape(q);
      assert WireKey(6) == S("index");
    }

    /** The numeric table entry stores its aspect under the attribute name:
        a non-empty `aggs` goes to the key "aggs". */
    lemma AggsUnderItsName(q: Query)
      ensures Resolution(q).Ok? ==> Find(Resolution(q).value, S("aggs")) == Emitted(Aspect(q, 2))
    {
      ResolutionShape(q);
      assert WireKey(2) == S("aggs");
    }

    /** `resolveCreate($query, $id, $data)`. */
    function ResolveCreate(q: Query, id: Value, data: seq<Entry>): (r: Outcome<seq<Entry>>)
      reads q
      ensures r.Raise? <==> Resolution(q).Raise?
      ensures r.Raise? ==> r.ex == Resolution(q).ex
      ensures r.Ok? ==> r.value == [Entry(S("id"), id), Entry(S("body"), Arr(data))] + Resolution(q).value
    {
      var head := [Entry(S("id"), id), Entry(S("body"), Arr(data))];
      match Resolution(q)
      case Raise(e) => Raise(e)
      case Ok(body) =>
        ResolutionShape(q);
        ResolvedKeys(q);
        Shaped(head, body);
        Ok(Merge(head, body))
    }

    /** `resolveUpdate($query, $id, $data)`: the data goes under `body.doc`. */
    function ResolveUpdate(q: Query, id: Value, data: seq<Entry>): (r: Outcome<seq<Entry>>)
      reads q
      ensures r.Raise? <==> Resolution(q).Raise?
      ensures r.Raise? ==> r.ex == Resolution(q).ex
      ensures r.Ok? ==>
        r.value == [Entry(S("id"), id), Entry(S("body"), Arr([Entry(S("doc"), Arr(data))]))] + Resolution(q).value
    {
      var head := [Entry(S("id"), id), Entry(S("body"), Arr([Entry(S("doc"), Arr(data))]))];
      match Resolution(q)
      case Raise(e) => Raise(e)
      case Ok(body) =>
        ResolutionShape(q);
        ResolvedKeys(q);
        Shaped(head, body);
        Ok(Merge(head, body))
    }

    /** `resolveDelete($query, $id)`: the id and the resolved aspects only. */
    function ResolveDelete(q: Query, id: Value): (r: Outcome<seq<Entry>>)
      reads q
      ensures r.Raise? <==> Resolution(q).Raise?
      ensures r.Raise? ==> r.ex == Resolution(q).ex
      ensures r.Ok? ==> r.value == [Entry(S("id"), id)] + Resolution(q).value
    {
      var head := [Entry(S("id"), id)];
      match Resolution(q)
      case Raise(e) => Raise(e)
      case Ok(body) =>
        ResolutionShape(q);
        ResolvedKeys(q);
        Shaped(head, body);
        Ok(Merge(head, body))
    }

    /** `resolveSelect($query)`: exactly `index`, `type` and `body`, the first
        two lifted out of the resolved aspects and removed from `body`. */
    function Select(q: Query): (r: Outcome<seq<Entry>>)
      reads q
      ensures r.Raise? <==> Resolution(q).Raise?
      ensures r.Raise? ==> r.ex == Resolution(q).ex
      ensures r.Ok? ==> (|r.value| == 3
                         && r.value[0] == Entry(S("index"), At(Arr(Resolution(q).value), S("index")))
                         && r.value[1] == Entry(S("type"), At(Arr(Resolution(q).value), S("type")))
                         && r.value[2].key == S("body") && r.value[2].val.Arr?)
      ensures r.Ok? ==> S("index") !in KeysOf(r.value[2].val.entries) && S("type") !in KeysOf(r.value[2].val.entries)
      ensures r.Ok? ==> forall e :: e in r.value[2].val.entries <==>
        e in Resolution(q).value && e.key != S("index") && e.key != S("type")
    {
      match Resolution(q)
      case Raise(e) => Raise(e)
      case Ok(body) =>
        var rest := Remove(Remove(body, S("index")), S("type"));
        assert S("index") !in KeysOf(rest) by {
          var once := Remove(body, S("index"));
          assert Find(rest, S("index")) == Find(once, S("index"));
        }
        Ok([Entry(S("index"), At(Arr(body), S("index"))), Entry(S("type"), At(Arr(body), S("type"))),
            Entry(S("body"), Arr(rest))])
    }

    /** `resolveSelect($query)`, run as the source runs it: the two params
        read out, the two keys unset, the rest stored under `body`. */
    method ResolveSelect(q: Query) returns (r: Outcome<seq<Entry>>)
      ensures r == Select(q)
    {
      var resolved := Resolve(q);
      if resolved.Raise? {
        return Raise(resolved.ex);
      }
      var body := resolved.value;
      var params := [Entry(S("index"), At(Arr(body), S("index"))), Entry(S("type"), At(Arr(body), S("type")))];
      body := Remove(body, S("index"));
      body := Remove(body, S("type"));
      assert S("body") !in KeysOf(params) by {
        KeysIndex(params, S("body"));
      }
      PutNew(params, S("body"), Arr(body));
      params := Put(params, S("body"), Arr(body));
      assert params == Select(q).value;
      r := Ok(params);
    }
  }

  // =====================================================================
  // Elastic: the operation facade

  /** The transport client: what it answers when its method `name` is called
      with the request parameters; an exception it throws is a `Raise`. */
  type Transport = (string, Value) -> Outcome<Value>

  /** create's catch clause: a version conflict becomes DocumentExistsException. */
  function OnConflict(e: Exception): (r: Exception)
    ensures e.Conflict409? ==> r.DocumentExists? && r.message == "Create error:" + e.message
    ensures !e.Conflict409? ==> r == e
  {
    if e.Conflict409? then DocumentExists("Create error:" + e.message) else e
  }

  /** update's and delete's catch clause: a missing document becomes
      NotFoundDocumentException. */
  function OnMissing(e: Exception, id: Value): (r: Exception)
    ensures e.Missing404? ==> r.NotFoundDocument? && r.message == "Document [" + StringCast(id) + "] not found"
    ensures !e.Missing404? ==> r == e
  {
    if e.Missing404? then NotFoundDocument("Document [" + StringCast(id) + "] not found") else e
  }

  /** create's check of the transport result and the array it returns. */
  function Created(data: seq<Entry>, id: Value, result: Value): (r: Outcome<seq<Entry>>)
    ensures r.Ok? <==> At(result, S("result")) == Str("created")
    ensures r.Raise? ==> r.ex == RunTime("Create error")
    ensures r.Ok? ==> Find(r.value, S("_id")) == Some(id) && Find(r.value, S("_result")) == Some(result)
    ensures r.Ok? ==> forall k :: k != S("_id") && k != S("_result") ==> Find(r.value, k) == Find(data, k)
  {
    if !IsSet(result, S("result")) || At(result, S("result")) != Str("created") then
      Raise(RunTime("Create error"))
    else
      Ok(Put(Put(data, S("_id"), id), S("_result"), result))
  }

  /** update's check: 'updated' and 'noop' both count as success. */
  function Updated(result: Value): (r: Outcome<bool>)
    ensures r.Ok? <==> At(result, S("result")) in {Str("updated"), Str("noop")}
    ensures r.Ok? ==> r.value
    ensures r.Raise? ==> r.ex == RunTime("Update error")
  {
    if !IsSet(result, S("result")) || At(result, S("result")) != Str("updated") then
      if At(result, S("result")) == Str("noop") then Ok(true) else Raise(RunTime("Update error"))
    else
      Ok(true)
  }

  /** delete's check: only 'deleted' counts as success. */
  function Deleted(result: Value): (r: Outcome<bool>)
    ensures r.Ok? <==> At(result, S("result")) == Str("deleted")
    ensures r.Ok? ==> r.value
    ensures r.Raise? ==> r.ex == RunTime("Delete error")
  {
    if !IsSet(result, S("result")) || At(result, S("result")) != Str("deleted") then
      Raise(RunTime("Delete error"))
    else
      Ok(true)
  }

  /** ASCII lower case, as PHP compares method names. */
  function Lower(s: string): (r: string)
    ensures |r| == |s|
    ensures forall i :: 0 <= i < |s| ==> (r[i] == s[i] || 'A' <= s[i] <= 'Z')
  {
    if s == [] then []
    else
      var c := if 'A' <= s[0] <= 'Z' then (s[0] as int - 'A' as int + 'a' as int) as char else s[0];
      [c] + Lower(s[1..])
  }

  /** The public and protected methods of `Query`. */
  datatype QueryMethod =
    | ConstructCall | IndexCall | TypeCall | LimitCall | WhereCall
    | GetClientCall | GetEngineCall | NewQueryCall | SetCall | GetCall

  /** `method_exists($query, $name)`, given the name in lower case (PHP
      method names ignore case): which method, if any, the name denotes. */
  function QueryMethodNamed(lower: string): (m: Option<QueryMethod>)
    ensures m == Some(IndexCall) <==> lower == "index"
    ensures m == Some(LimitCall) <==> lower == "limit"
    ensures m == Some(WhereCall) <==> lower == "where"
    ensures m == Some(GetCall) <==> lower == "get"
    ensures m == None <==> lower !in {"__construct", "index", "type", "limit", "where",
                                      "getclient", "getengine", "newquery", "set", "get"}
  {
    if lower == "__construct" then Some(ConstructCall)
    else if lower == "index" then Some(IndexCall)
    else if lower == "type" then Some(TypeCall)
    else if lower == "limit" then Some(LimitCall)
    else if lower == "where" then Some(WhereCall)
    else if lower == "getclient" then Some(GetClientCall)
    else if lower == "getengine" then Some(GetEngineCall)
    else if lower == "newquery" then Some(NewQueryCall)
    else if lower == "set" then Some(SetCall)
    else if lower == "get" then Some(GetCall)
    else None
  }

  /** A string parameter in coercive typing mode. */
  function StringArg(v: Value): (r: Outcome<string>)
    ensures v.Str? ==> r == Ok(v.s)
    ensures v.Int? || v.Bool? ==> r == Ok(StringCast(v))
    ensures r.Ok? <==> v.Str? || v.Int? || v.Bool?
    ensures r.Raise? ==> r.ex.TypeError?
  {
    match v
    case Str(s) => Ok(s)
    case Int(_) => Ok(StringCast(v))
    case Bool(_) => Ok(StringCast(v))
    case _ => Raise(TypeError("Argument must be of type string"))
  }

  /** An int parameter in coercive typing mode: booleans and integer
      numeric strings convert. */
  function IntArg(v: Value): (r: Outcome<int>)
    ensures v.Int? ==> r == Ok(v.i)
    ensures v.Str? && IsIntString(v.s) ==> r == Ok(ParseInt(v.s))
    ensures v.Bool? ==> r == Ok(if v.b then 1 else 0)
    ensures r.Ok? <==> v.Int? || v.Bool? || (v.Str? && IsIntString(v.s))
    ensures r.Raise? ==> r.ex.TypeError?
  {
    match v
    case Int(i) => Ok(i)
    case Bool(b) => Ok(if b then 1 else 0)
    case Str(t) => if IsIntString(t) then Ok(ParseInt(t)) else Raise(TypeError("Argument must be of type int"))
    case _ => Raise(TypeError("Argument must be of type int"))
  }

  /** `where(...$args)`: the record it builds once `$leaf` and `$boolean`,
      declared `string`, are coerced (in that order), the arguments left out
      taking their defaults. */
  function WhereOf(operators: seq<Entry>, args: seq<Value>): (r: Outcome<WhereClause>)
    requires |args| >= 1
    ensures r.Raise? <==> (|args| >= 4 && StringArg(args[3]).Raise?) || (|args| >= 5 && StringArg(args[4]).Raise?)
    ensures r.Raise? ==> r.ex.TypeError?
    ensures r.Ok? ==> r.value.column == args[0]
    ensures r.Ok? ==> r.value.boolean == (if |args| >= 5 then StringArg(args[4]).value else "and")
  {
    var leaf := if |args| >= 4 then StringArg(args[3]) else Ok("term");
    var boolean := if |args| >= 5 then StringArg(args[4]) else Ok("and");
    if leaf.Raise? then Raise(leaf.ex)
    else if boolean.Raise? then Raise(boolean.ex)
    else Ok(NormalizeWhere(operators, |args|, args[0], if |args| >= 2 then args[1] else Null,
                           if |args| >= 3 then args[2] else Null, leaf.value, boolean.value))
  }

  /** What `__call` hands back: the facade itself when the query method
      returned the query, otherwise what it returned. */
  datatype Forwarded = Facade | Returned(p: Prop)

  class Elastic {
    var query: Query
    var rawParams: Value

    /** `new Elastic($query)`. */
    constructor (query: Query)
      ensures this.query == query && rawParams == Arr([])
    {
      this.query := query;
      rawParams := Arr([]);
    }

    /** `runQuery($params, $name)`: the request is recorded before the call;
        the query is replaced by a fresh one only when the call returns. */
    method RunQuery(params: seq<Entry>, name: string, transport: Transport) returns (r: Outcome<Value>)
      modifies this
      ensures rawParams == Arr(params) && r == transport(name, Arr(params))
      ensures r.Raise? ==> query == old(query)
      ensures r.Ok? ==> fresh(query) && query.IsResetOf(old(query))
    {
      rawParams := Arr(params);
      r := transport(name, Arr(params));
      if r.Raise? {
        return;
      }
      query := query.NewQuery();
    }

    /** `create($data, $primaryKey)`. */
    method Create(data: seq<Entry>, primaryKey: Key, transport: Transport) returns (r: Outcome<seq<Entry>>)
      modifies this
      ensures var request := old(query.engine.ResolveCreate(query, At(Arr(data), primaryKey), data));
        request.Raise? ==>
          r == Raise(OnConflict(request.ex)) && query == old(query) && rawParams == old(rawParams)
      ensures var request := old(query.engine.ResolveCreate(query, At(Arr(data), primaryKey), data));
        request.Ok? ==>
          rawParams == Arr(request.value)
          && (var reply := transport("create", Arr(request.value));
              (reply.Raise? ==> r == Raise(OnConflict(reply.ex)) && query == old(query))
              && (reply.Ok? ==>
                    r == Created(data, At(Arr(data), primaryKey), reply.value) && fresh(query) && query.IsResetOf(old(query))))
    {
      var id := At(Arr(data), primaryKey);
      var request := query.engine.ResolveCreate(query, id, data);
      if request.Raise? {
        return Raise(OnConflict(request.ex));
      }
      var reply := RunQuery(request.value, "create", transport);
      if reply.Raise? {
        return Raise(OnConflict(reply.ex));
      }
      r := Created(data, id, reply.value);
    }

    /** `update($id, $data)`. */
    method Update(id: Value, data: seq<Entry>, transport: Transport) returns (r: Outcome<bool>)
      modifies this
      ensures var request := old(query.engine.ResolveUpdate(query, id, data));
        request.Raise? ==>
          r == Raise(OnMissing(request.ex, id)) && query == old(query) && rawParams == old(rawParams)
      ensures var request := old(query.engine.ResolveUpdate(query, id, data));
        request.Ok? ==>
          rawParams == Arr(request.value)
          && (var reply := transport("update", Arr(request.value));
              (reply.Raise? ==> r == Raise(OnMissing(reply.ex, id)) && query == old(query))
              && (reply.Ok? ==>
                    r == Updated(reply.value) && fresh(query) && query.IsResetOf(old(query))))
    {
      var request := query.engine.ResolveUpdate(query, id, data);
      if request.Raise? {
        return Raise(OnMissing(request.ex, id));
      }
      var reply := RunQuery(request.value, "update", transport);
      if reply.Raise? {
        return Raise(OnMissing(reply.ex, id));
      }
      r := Updated(reply.value);
    }

    /** `delete($id)`. */
    method Delete(id: Value, transport: Transport) returns (r: Outcome<bool>)
      modifies this
      ensures var request := old(query.engine.ResolveDelete(query, id));
        request.Raise? ==>
          r == Raise(OnMissing(request.ex, id)) && query == old(query) && rawParams == old(rawParams)
      ensures var request := old(query.engine.ResolveDelete(query, id));
        request.Ok? ==>
          rawParams == Arr(request.value)
          && (var reply := transport("delete", Arr(request.value));
              (reply.Raise? ==> r == Raise(OnMissing(reply.ex, id)) && query == old(query))
              && (reply.Ok? ==>
                    r == Deleted(reply.value) && fresh(query) && query.IsResetOf(old(query))))
    {
      var request := query.engine.ResolveDelete(query, id);
      if request.Raise? {
        return Raise(OnMissing(request.ex, id));
      }
      var reply := RunQuery(request.value, "delete", transport);
      if reply.Raise? {
        return Raise(OnMissing(reply.ex, id));
      }
      r := Deleted(reply.value);
    }

    /** `search()`, declared to return an array. */
    method Search(transport: Transport) returns (r: Outcome<seq<Entry>>)
      modifies this
      ensures var request := old(query.engine.Select(query));
        request.Raise? ==>
          r == Raise(request.ex) && query == old(query) && rawParams == old(rawParams)
      ensures var request := old(query.engine.Select(query));
        request.Ok? ==>
          rawParams == Arr(request.value)
          && (var reply := transport("search", Arr(request.value));
              (reply.Raise? ==> r == Raise(reply.ex) && query == old(query))
              && (reply.Ok? ==>
                    r == Supports.ArrayReturn(reply.value, "search") && fresh(query) && query.IsResetOf(old(query))))
    {
      var request := query.engine.ResolveSelect(query);
      if request.Raise? {
        return Raise(request.ex);
      }
      var reply := RunQuery(request.value, "search", transport);
      if reply.Raise? {
        return Raise(reply.ex);
      }
      r := Supports.ArrayReturn(reply.value, "search");
    }

    /** `first()`: limit 1, then the response wrapped in a Result. */
    method First(transport: Transport) returns (r: Outcome<Supports.Result>)
      modifies this, query
      ensures old(query).limit == Int(1)
      ensures old(query).index == old(query.index) && old(query).docType == old(query.docType)
      ensures old(query).wheres == old(query.wheres) && old(query).offset == old(query.offset)
      ensures old(query).engine == old(query.engine) && old(query).client == old(query.client)
      ensures old(query).columns == old(query.columns) && old(query).orders == old(query.orders)
      ensures old(query).aggs == old(query.aggs)
      ensures var request := old(query).engine.Select(old(query));
        request.Raise? ==>
          r == Raise(request.ex) && query == old(query) && rawParams == old(rawParams)
      ensures var request := old(query).engine.Select(old(query));
        request.Ok? ==>
          rawParams == Arr(request.value)
          && (var reply := transport("search", Arr(request.value));
              (reply.Raise? ==> r == Raise(reply.ex) && query == old(query))
              && (reply.Ok? ==> fresh(query) && query.IsResetOf(old(query)))
              && (reply.Ok? ==>
                    (reply.value.Arr? ==>
                       r.Ok? && fresh(r.value) && !r.value.isPaginator
                       && r.value.Holds(reply.value.entries) && r.value.rawParams == Arr(request.value))
                    && (!reply.value.Arr? ==> r.Raise? && r.ex.TypeError?)))
    {
      query.Limit(1);
      var meta := Search(transport);
      if meta.Raise? {
        return Raise(meta.ex);
      }
      var result := new Supports.Result(meta.value, rawParams);
      r := Ok(result);
    }

    /** `get()`: the response wrapped in a Paginator. */
    method Get(transport: Transport) returns (r: Outcome<Supports.Result>)
      modifies this
      ensures var request := old(query.engine.Select(query));
        request.Raise? ==>
          r == Raise(request.ex) && query == old(query) && rawParams == old(rawParams)
      ensures var request := old(query.engine.Select(query));
        request.Ok? ==>
          rawParams == Arr(request.value)
          && (var reply := transport("search", Arr(request.value));
              (reply.Raise? ==> r == Raise(reply.ex) && query == old(query))
              && (reply.Ok? ==> fresh(query) && query.IsResetOf(old(query)))
              && (reply.Ok? ==>
                    (reply.value.Arr? ==>
                       r.Ok? && fresh(r.value) && r.value.isPaginator
                       && r.value.Holds(reply.value.entries) && r.value.rawParams == Arr(request.value))
                    && (!reply.value.Arr? ==> r.Raise? && r.ex.TypeError?)))
    {
      var meta := Search(transport);
      if meta.Raise? {
        return Raise(meta.ex);
      }
      var result := new Supports.Result.Paginator(meta.value, rawParams);
      r := Ok(result);
    }

    /** `__call($name, $arguments)`: forwards to the query's method of that
        name. A method returning the query hands back the facade. */
    method Call(name: string, args: seq<Value>) returns (r: Outcome<Forwarded>)
      modifies query
      ensures QueryMethodNamed(Lower(name)).None? ==>
        r == Raise(BadMethodCall("The method [" + name + "] was not found"))
      ensures QueryMethodNamed(Lower(name)) !in {Some(IndexCall), Some(TypeCall), Some(LimitCall), Some(WhereCall)} ==>
        unchanged(query)
      ensures (QueryMethodNamed(Lower(name)) in {Some(IndexCall), Some(TypeCall), Some(LimitCall), Some(WhereCall)}
               && r.Ok?) ==> r.value == Facade
      ensures QueryMethodNamed(Lower(name)) == Some(NewQueryCall) ==> r == Ok(Facade)
      ensures QueryMethodNamed(Lower(name)) == Some(GetClientCall) ==> r == Ok(Returned(ClientRef(query.client)))
      ensures QueryMethodNamed(Lower(name)) == Some(GetEngineCall) ==> r == Ok(Returned(EngineRef(query.engine)))
      ensures QueryMethodNamed(Lower(name)) in {Some(SetCall), Some(ConstructCall)} ==> r.Raise?
      ensures QueryMethodNamed(Lower(name)) == Some(SetCall) ==> r.ex.TypeError?
      ensures QueryMethodNamed(Lower(name)) == Some(GetCall) && |args| >= 1 && StringArg(args[0]).Ok? ==>
        var got := query.Get(StringArg(args[0]).value);
        (got.Ok? ==> r == Ok(Returned(got.value))) && (got.Raise? ==> r == Raise(got.ex))
      ensures QueryMethodNamed(Lower(name)) == Some(IndexCall) && |args| >= 1 && StringArg(args[0]).Ok? ==>
        r == Ok(Facade) && query.index == Str(StringArg(args[0]).value)
      ensures QueryMethodNamed(Lower(name)) == Some(TypeCall) && |args| >= 1 && StringArg(args[0]).Ok? ==>
        r == Ok(Facade) && query.docType == Str(StringArg(args[0]).value)
      ensures QueryMethodNamed(Lower(name)) == Some(LimitCall) && |args| >= 1 && IntArg(args[0]).Ok? ==>
        r == Ok(Facade) && query.limit == Int(IntArg(args[0]).value)
      ensures QueryMethodNamed(Lower(name)) in {Some(GetCall), Some(IndexCall), Some(TypeCall)} && |args| >= 1 && StringArg(args[0]).Raise? ==>
        r.Raise? && r.ex.TypeError?
      ensures QueryMethodNamed(Lower(name)) == Some(LimitCall) && |args| >= 1 && IntArg(args[0]).Raise? ==>
        r.Raise? && r.ex.TypeError?
      ensures QueryMethodNamed(Lower(name)) == Some(WhereCall) && |args| >= 1 && WhereOf(query.operators, args).Ok? ==>
        var appended := AppendTo(old(query.wheres), Record(WhereOf(query.operators, args).value));
        (r.Ok? <==> appended.Ok?) && (appended.Ok? ==> query.wheres == appended.value)
      ensures QueryMethodNamed(Lower(name)) == Some(WhereCall) && |args| >= 1 && WhereOf(query.operators, args).Raise? ==>
        r == Raise(WhereOf(query.operators, args).ex)
      // only the called setter's property, or `wheres` for `where`, changes
      ensures query.engine == old(query.engine) && query.client == old(query.client) && query.offset == old(query.offset)
      ensures query.columns == old(query.columns) && query.orders == old(query.orders) && query.aggs == old(query.aggs)
      ensures QueryMethodNamed(Lower(name)) != Some(IndexCall) ==> query.index == old(query.index)
      ensures QueryMethodNamed(Lower(name)) != Some(TypeCall) ==> query.docType == old(query.docType)
      ensures QueryMethodNamed(Lower(name)) != Some(LimitCall) ==> query.limit == old(query.limit)
      ensures QueryMethodNamed(Lower(name)) != Some(WhereCall) ==> query.wheres == old(query.wheres)
      ensures r.Raise? ==> query.index == old(query.index) && query.docType == old(query.docType)
                           && query.limit == old(query.limit) && query.wheres == old(query.wheres)
    {
      r := Forward(query, QueryMethodNamed(Lower(name)), name, args);
    }

    /** The dispatch of `__call`, once the name is resolved to a method. */
    method Forward(q: Query, m: Option<QueryMethod>, name: string, args: seq<Value>) returns (r: Outcome<Forwarded>)
      modifies q
      ensures m.None? ==>
        r == Raise(BadMethodCall("The method [" + name + "] was not found"))
      ensures m !in {Some(IndexCall), Some(TypeCall), Some(LimitCall), Some(WhereCall)} ==>
        unchanged(q)
      ensures (m in {Some(IndexCall), Some(TypeCall), Some(LimitCall), Some(WhereCall)}
               && r.Ok?) ==> r.value == Facade
      ensures m == Some(NewQueryCall) ==> r == Ok(Facade)
      ensures m == Some(GetClientCall) ==> r == Ok(Returned(ClientRef(q.client)))
      ensures m == Some(GetEngineCall) ==> r == Ok(Returned(EngineRef(q.engine)))
      ensures m in {Some(SetCall), Some(ConstructCall)} ==> r.Raise?
      ensures m == Some(SetCall) ==> r.ex.TypeError?
      ensures m == Some(GetCall) && |args| >= 1 && StringArg(args[0]).Ok? ==>
        var got := q.Get(StringArg(args[0]).value);
        (got.Ok? ==> r == Ok(Returned(got.value))) && (got.Raise? ==> r == Raise(got.ex))
      ensures m == Some(IndexCall) && |args| >= 1 && StringArg(args[0]).Ok? ==>
        r == Ok(Facade) && q.index == Str(StringArg(args[0]).value)
      ensures m == Some(TypeCall) && |args| >= 1 && StringArg(args[0]).Ok? ==>
        r == Ok(Facade) && q.docType == Str(StringArg(args[0]).value)
      ensures m == Some(LimitCall) && |args| >= 1 && IntArg(args[0]).Ok? ==>
        r == Ok(Facade) && q.limit == Int(IntArg(args[0]).value)
      ensures m in {Some(GetCall), Some(IndexCall), Some(TypeCall)} && |args| >= 1 && StringArg(args[0]).Raise? ==>
        r.Raise? && r.ex.TypeError?
      ensures m == Some(LimitCall) && |args| >= 1 && IntArg(args[0]).Raise? ==>
        r.Raise? && r.ex.TypeError?
      ensures m == Some(WhereCall) && |args| >= 1 && WhereOf(q.operators, args).Ok? ==>
        var appended := AppendTo(old(q.wheres), Record(WhereOf(q.operators, args).value));
        (r.Ok? <==> appended.Ok?) && (appended.Ok? ==> q.wheres == appended.value)
      ensures m == Some(WhereCall) && |args| >= 1 && WhereOf(q.operators, args).Raise? ==>
        r == Raise(WhereOf(q.operators, args).ex)
      // only the called setter's property, or `wheres` for `where`, changes
      ensures q.engine == old(q.engine) && q.client == old(q.client) && q.offset == old(q.offset)
      ensures q.columns == old(q.columns) && q.orders == old(q.orders) && q.aggs == old(q.aggs)
      ensures m != Some(IndexCall) ==> q.index == old(q.index)
      ensures m != Some(TypeCall) ==> q.docType == old(q.docType)
      ensures m != Some(LimitCall) ==> q.limit == old(q.limit)
      ensures m != Some(WhereCall) ==> q.wheres == old(q.wheres)
      ensures r.Raise? ==> q.index == old(q.index) && q.docType == old(q.docType)
                           && q.limit == old(q.limit) && q.wheres == old(q.wheres)
    {
      if m.None? {
        r := Raise(BadMethodCall("The method [" + name + "] was not found"));
      } else if m.value == SetCall {
        r := Raise(TypeError("Query::set()"));
      } else if m.value == ConstructCall {
        if |args| < 2 {
          r := Raise(ArgumentCountError("Query::__construct()"));
        } else {
          r := Raise(TypeError("Query::__construct()"));
        }
      } else if m.value == GetClientCall {
        r := Ok(Returned(ClientRef(q.client)));
      } else if m.value == GetEngineCall {
        r := Ok(Returned(EngineRef(q.engine)));
      } else if m.value == NewQueryCall {
        r := ForwardNewQuery(q);
      } else if |args| < 1 {
        r := Raise(ArgumentCountError("Query::" + name + "()"));
      } else if m.value == GetCall {
        r := ForwardGet(q, args);
      } else if m.value == WhereCall {
        r := ForwardWhere(q, args);
      } else {
        r := ForwardSetter(q, m.value, args);
      }
    }

    /** `__call('newQuery')`: the fresh query is built and dropped; the
        facade keeps its own query and is handed back. */
    method ForwardNewQuery(q: Query) returns (r: Outcome<Forwarded>)
      ensures r == Ok(Facade)
    {
      var _ := q.NewQuery();
      r := Ok(Facade);
    }

    /** `__call('get', $args)`: the named property, or get()'s exception. */
    method ForwardGet(q: Query, args: seq<Value>) returns (r: Outcome<Forwarded>)
      requires |args| >= 1
      ensures StringArg(args[0]).Ok? && q.Get(StringArg(args[0]).value).Ok? ==>
        r == Ok(Returned(q.Get(StringArg(args[0]).value).value))
      ensures StringArg(args[0]).Ok? && q.Get(StringArg(args[0]).value).Raise? ==>
        r == Raise(q.Get(StringArg(args[0]).value).ex)
      ensures StringArg(args[0]).Raise? ==> r.Raise? && r.ex.TypeError?
    {
      var s := StringArg(args[0]);
      if s.Raise? {
        return Raise(s.ex);
      }
      var got := q.Get(s.value);
      if got.Raise? {
        return Raise(got.ex);
      }
      return Ok(Returned(got.value));
    }

    /** `__call` for `index`, `type` and `limit`: the setter runs on the
        coerced argument and the facade is handed back. */
    method ForwardSetter(q: Query, m: QueryMethod, args: seq<Value>) returns (r: Outcome<Forwarded>)
      requires m in {IndexCall, TypeCall, LimitCall} && |args| >= 1
      modifies q
      ensures r.Ok? ==> r.value == Facade
      ensures m == IndexCall && StringArg(args[0]).Ok? ==>
        r == Ok(Facade) && q.index == Str(StringArg(args[0]).value)
      ensures m == TypeCall && StringArg(args[0]).Ok? ==>
        r == Ok(Facade) && q.docType == Str(StringArg(args[0]).value)
      ensures m == LimitCall && IntArg(args[0]).Ok? ==>
        r == Ok(Facade) && q.limit == Int(IntArg(args[0]).value)
      ensures (if m == LimitCall then IntArg(args[0]).Raise? else StringArg(args[0]).Raise?) ==>
        r.Raise? && r.ex.TypeError?
      ensures q.engine == old(q.engine) && q.client == old(q.client) && q.offset == old(q.offset)
      ensures q.wheres == old(q.wheres) && q.columns == old(q.columns) && q.orders == old(q.orders)
      ensures q.aggs == old(q.aggs)
      ensures m != IndexCall ==> q.index == old(q.index)
      ensures m != TypeCall ==> q.docType == old(q.docType)
      ensures m != LimitCall ==> q.limit == old(q.limit)
      ensures r.Raise? ==> unchanged(q)
    {
      if m == LimitCall {
        var n := IntArg(args[0]);
        if n.Raise? {
          return Raise(n.ex);
        }
        q.Limit(n.value);
        return Ok(Facade);
      }
      var s := StringArg(args[0]);
      if s.Raise? {
        return Raise(s.ex);
      }
      if m == IndexCall {
        q.Index(s.value);
      } else {
        q.Type(s.value);
      }
      return Ok(Facade);
    }

    /** `__call('where', $args)`: the arguments the caller left out take
        where()'s defaults. */
    method ForwardWhere(q: Query, args: seq<Value>) returns (r: Outcome<Forwarded>)
      requires |args| >= 1
      modifies q
      ensures r.Ok? ==> r.value == Facade
      ensures WhereOf(q.operators, args).Ok? ==>
        var appended := AppendTo(old(q.wheres), Record(WhereOf(q.operators, args).value));
        (r.Ok? <==> appended.Ok?) && (appended.Ok? ==> q.wheres == appended.value)
      ensures WhereOf(q.operators, args).Raise? ==> r == Raise(WhereOf(q.operators, args).ex)
      ensures q.engine == old(q.engine) && q.client == old(q.client) && q.offset == old(q.offset)
      ensures q.index == old(q.index) && q.docType == old(q.docType) && q.limit == old(q.limit)
      ensures q.columns == old(q.columns) && q.orders == old(q.orders) && q.aggs == old(q.aggs)
      ensures r.Raise? ==> q.wheres == old(q.wheres)
    {
      var operator := if |args| >= 2 then args[1] else Null;
      var value := if |args| >= 3 then args[2] else Null;
      var leaf := if |args| >= 4 then StringArg(args[3]) else Ok("term");
      if leaf.Raise? {
        return Raise(leaf.ex);
      }
      var boolean := if |args| >= 5 then StringArg(args[4]) else Ok("and");
      if boolean.Raise? {
        return Raise(boolean.ex);
      }
      var done := q.Where(|args|, args[0], operator, value, leaf.value, boolean.value);
      if done.Raise? {
        return Raise(done.ex);
      }
      r := Ok(Facade);
    }
  }
}

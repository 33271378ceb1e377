/** The part of PHP's value model the library relies on: null, scalars and
    ordered arrays whose keys are integers or strings. Floats and objects are
    not values here (objects the library passes around are Dafny classes). */
module Php {

  datatype Option<T> = None | Some(value: T) {
    function GetOr(default: T): T {
      if Some? then value else default
    }
  }

  /** An array key: PHP keeps integer keys and string keys apart. */
  datatype Key = I(n: int) | S(s: string)

  datatype Value =
    | Null
    | Bool(b: bool)
    | Int(i: int)
    | Str(s: string)
    | Arr(entries: seq<Entry>)

  /** One key/value slot of an array; an array keeps its slots in insertion order. */
  datatype Entry = Entry(key: Key, val: Value)

  function KeysOf(es: seq<Entry>): (ks: seq<Key>)
    ensures |ks| == |es|
  {
    if es == [] then [] else [es[0].key] + KeysOf(es[1..])
  }

  /** The keys are read off slot by slot. */
  lemma {:induction false} KeysAt(es: seq<Entry>)
    ensures forall j :: 0 <= j < |es| ==> KeysOf(es)[j] == es[j].key
  {
    if es != [] {
      KeysAt(es[1..]);
    }
  }

  lemma {:induction false} KeysIndex(es: seq<Entry>, k: Key)
    ensures k in KeysOf(es) <==> exists j :: 0 <= j < |es| && es[j].key == k
  {
    if es != [] {
      KeysIndex(es[1..], k);
      if k in KeysOf(es[1..]) {
        var j :| 0 <= j < |es[1..]| && es[1..][j].key == k;
        assert es[j + 1].key == k;
      }
      if exists j :: 0 <= j < |es| && es[j].key == k {
        var j :| 0 <= j < |es| && es[j].key == k;
        if j > 0 { assert es[1..][j - 1].key == k; }
      }
    }
  }

  /** A real PHP array never holds a key twice. */
  predicate DistinctKeys(es: seq<Entry>) {
    forall i, j :: 0 <= i < j < |es| ==> es[i].key != es[j].key
  }

  predicate StringKeys(es: seq<Entry>) {
    forall j :: 0 <= j < |es| ==> es[j].key.S?
  }

  /** The slot stored under `k`, if there is one. */
  function Find(es: seq<Entry>, k: Key): (r: Option<Value>)
    ensures r.Some? <==> k in KeysOf(es)
    ensures r.Some? ==> Entry(k, r.value) in es
  {
    if es == [] then None
    else if es[0].key == k then Some(es[0].val)
    else Find(es[1..], k)
  }

  /** `$v[$k]` as a read: null when `v` is not an array or has no such key
      (PHP only emits a warning then). */
  function At(v: Value, k: Key): Value {
    if v.Arr? then Find(v.entries, k).GetOr(Null) else Null
  }

  /** `isset($v[$k])`: the key is there and its value is not null. */
  predicate IsSet(v: Value, k: Key) {
    At(v, k) != Null
  }

  /** `$a[$k] = $x`: an existing slot is overwritten where it stands, a new
      key is added at the end. */
  function Put(es: seq<Entry>, k: Key, x: Value): (r: seq<Entry>)
    ensures Find(r, k) == Some(x)
    ensures forall k' :: k' != k ==> Find(r, k') == Find(es, k')
  {
    if es == [] then [Entry(k, x)]
    else if es[0].key == k then [Entry(k, x)] + es[1..]
    else
      var r := [es[0]] + Put(es[1..], k, x);
      assert r[0] == es[0] && r[1..] == Put(es[1..], k, x);
      r
  }

  /** Writing a key the array does not have appends a slot at the end. */
  lemma {:induction false} PutNew(es: seq<Entry>, k: Key, x: Value)
    requires k !in KeysOf(es)
    ensures Put(es, k, x) == es + [Entry(k, x)]
  {
    if es != [] {
      PutNew(es[1..], k, x);
      assert [es[0]] + (es[1..] + [Entry(k, x)]) == es + [Entry(k, x)];
    }
  }

  /** The key `$a[] = $x` picks: one past the largest integer key, and never
      below 0 (the rule of PHP before 8.3). */
  function NextKey(es: seq<Entry>): (n: int)
    ensures n >= 0
    ensures forall j :: 0 <= j < |es| && es[j].key.I? ==> es[j].key.n < n
  {
    if es == [] then 0
    else
      var rest := NextKey(es[1..]);
      if es[0].key.I? && es[0].key.n + 1 > rest then es[0].key.n + 1 else rest
  }

  /** `$a[] = $x` on an array. */
  function Append(es: seq<Entry>, x: Value): (r: seq<Entry>)
    ensures |r| == |es| + 1 && r[..|es|] == es
    ensures r[|es|].val == x && r[|es|].key.I? && r[|es|].key !in KeysOf(es)
  {
    KeysIndex(es, I(NextKey(es)));
    es + [Entry(I(NextKey(es)), x)]
  }

  /** `unset($a[$k])`. */
  function Remove(es: seq<Entry>, k: Key): (r: seq<Entry>)
    ensures k !in KeysOf(r)
    ensures forall k' :: k' != k ==> Find(r, k') == Find(es, k')
    ensures forall e :: e in r <==> e in es && e.key != k
  {
    if es == [] then []
    else if es[0].key == k then Remove(es[1..], k)
    else [es[0]] + Remove(es[1..], k)
  }

  /** The fold behind `array_merge`: a string key is written with `Put`, an
      integer key is dropped and its value appended under the next free key. */
  function MergeInto(acc: seq<Entry>, es: seq<Entry>): seq<Entry>
    decreases |es|
  {
    if es == [] then acc
    else
      var e := es[0];
      var acc' := if e.key.I? then Append(acc, e.val) else Put(acc, e.key, e.val);
      MergeInto(acc', es[1..])
  }

  /** `array_merge($a, $b)`. */
  function Merge(a: seq<Entry>, b: seq<Entry>): seq<Entry> {
    MergeInto(MergeInto([], a), b)
  }

  /** PHP's boolean conversion; `empty($v)` is its negation. */
  predicate Truthy(v: Value) {
    match v
    case Null => false
    case Bool(b) => b
    case Int(i) => i != 0
    case Str(s) => s != "" && s != "0"
    case Arr(es) => es != []
  }

  /** The values `empty()` holds for: exactly the six falsy ones. */
  lemma EmptyValues(v: Value)
    ensures !Truthy(v) <==> v in {Null, Bool(false), Int(0), Str(""), Str("0"), Arr([])}
  {
  }

  function DigitChar(d: nat): char
    requires d < 10
  {
    ('0' as int + d) as char
  }

  predicate IsDigit(c: char) {
    '0' <= c <= '9'
  }

  predicate AllDigits(s: string) {
    forall i :: 0 <= i < |s| ==> IsDigit(s[i])
  }

  function NatToString(n: nat): (s: string)
    ensures |s| >= 1
    decreases n
  {
    if n < 10 then [DigitChar(n)] else NatToString(n / 10) + [DigitChar(n % 10)]
  }

  /** Decimal notation of an integer, as `(string) $i` writes it. */
  function IntToString(i: int): string {
    if i < 0 then "-" + NatToString(-i) else NatToString(i)
  }

  /** An integer numeric string: an optional sign, then one or more decimal
      digits (leading zeros allowed). */
  predicate IsIntString(s: string) {
    if |s| > 0 && (s[0] == '-' || s[0] == '+') then |s| > 1 && AllDigits(s[1..])
    else |s| > 0 && AllDigits(s)
  }

  /** The number a run of decimal digits denotes. */
  function DigitsValue(s: string): nat
    requires AllDigits(s)
    decreases |s|
  {
    if s == [] then 0 else DigitsValue(s[..|s| - 1]) * 10 + (s[|s| - 1] as int - '0' as int)
  }

  /** The integer an integer numeric string denotes, as PHP converts it. */
  function ParseInt(s: string): int
    requires IsIntString(s)
  {
    if s[0] == '-' then -(DigitsValue(s[1..]) as int)
    else if s[0] == '+' then DigitsValue(s[1..])
    else DigitsValue(s)
  }

  /** Decimal notation is digits only, and reads back as the number. */
  lemma {:induction false} NatDigits(n: nat)
    ensures AllDigits(NatToString(n)) && DigitsValue(NatToString(n)) == n
    decreases n
  {
    if n >= 10 {
      NatDigits(n / 10);
      var s := NatToString(n);
      assert s[..|s| - 1] == NatToString(n / 10);
    }
  }

  /** `(string) $i` is an integer numeric string that converts back to `$i`. */
  lemma IntStringRoundTrip(i: int)
    ensures IsIntString(StringCast(Int(i))) && ParseInt(StringCast(Int(i))) == i
  {
    if i < 0 {
      NatDigits(-i);
      assert ("-" + NatToString(-i))[1..] == NatToString(-i);
    } else {
      NatDigits(i);
    }
  }

  /** A string whose first character cannot start a numeric string (PHP
      allows leading whitespace or control characters, a sign, a digit or a
      dot there). */
  predicate NonNumericLead(s: string) {
    |s| > 0 && s[0] > ' ' && !IsDigit(s[0]) && s[0] !in {'-', '+', '.'}
  }

  /** PHP 8's loose comparison `$v == $s` against a non-numeric string: null
      equals only "", a boolean compares with the string's truthiness, an
      integer compares as its decimal string, a string by content, and an
      array never equals a string. */
  predicate LooseEqualsText(v: Value, s: string)
    requires NonNumericLead(s)
  {
    match v
    case Null => s == ""
    case Bool(b) => b == Truthy(Str(s))
    case Int(i) => IntToString(i) == s
    case Str(t) => t == s
    case Arr(_) => false
  }

  /** `(string) $v`. An array converts to "Array" (with a warning). */
  function StringCast(v: Value): string {
    match v
    case Null => ""
    case Bool(b) => if b then "1" else ""
    case Int(i) => IntToString(i)
    case Str(s) => s
    case Arr(_) => "Array"
  }

  /** The key a scalar becomes when used as an array key: booleans and integers
      give integer keys, strings give string keys (a decimal string such as "1"
      would become an integer key; the tables this model looks up have no such
      keys, so that case is not distinguished), null gives "". */
  function KeyCast(v: Value): (k: Key)
    ensures k.I? <==> v.Bool? || v.Int?
    ensures v.Int? ==> k == I(v.i)
    ensures v.Str? ==> k == S(v.s)
  {
    match v
    case Null => S("")
    case Bool(b) => I(if b then 1 else 0)
    case Int(i) => I(i)
    case Str(s) => S(s)
    case Arr(_) => S("")
  }

  // ---------------------------------------------------------------------
  // Facts about lookup, append and merge

  lemma {:induction false} FindConcat(es: seq<Entry>, e: Entry, k: Key)
    ensures Find(es + [e], k) ==
      if k in KeysOf(es) then Find(es, k) else if e.key == k then Some(e.val) else None
  {
    if es == [] {
      assert es + [e] == [e];
    } else {
      assert (es + [e])[1..] == es[1..] + [e];
      FindConcat(es[1..], e, k);
    }
  }

  lemma {:induction false} KeysAppend(es: seq<Entry>, e: Entry)
    ensures KeysOf(es + [e]) == KeysOf(es) + [e.key]
  {
    if es != [] {
      assert (es + [e])[1..] == es[1..] + [e];
      KeysAppend(es[1..], e);
    }
  }

  /** Appending under an integer key leaves every string-keyed lookup alone. */
  lemma AppendKeepsStringKeys(es: seq<Entry>, x: Value, s: string)
    ensures Find(Append(es, x), S(s)) == Find(es, S(s))
  {
    FindConcat(es, Entry(I(NextKey(es)), x), S(s));
  }

  lemma {:induction false} FindDistinct(es: seq<Entry>, j: nat)
    requires j < |es| && DistinctKeys(es)
    ensures Find(es, es[j].key) == Some(es[j].val)
  {
    if j > 0 {
      assert es[0].key != es[j].key;
      assert es[1..][j - 1] == es[j];
      FindDistinct(es[1..], j - 1);
    }
  }

  /** A string key read after `array_merge`-style folding comes from the last
      array that has it. */
  lemma {:induction false} MergeIntoFindString(acc: seq<Entry>, es: seq<Entry>, s: string)
    requires DistinctKeys(es)
    ensures Find(MergeInto(acc, es), S(s)) ==
      if S(s) in KeysOf(es) then Find(es, S(s)) else Find(acc, S(s))
    decreases |es|
  {
    if es != [] {
      var e := es[0];
      var acc' := if e.key.I? then Append(acc, e.val) else Put(acc, e.key, e.val);
      assert DistinctKeys(es[1..]) by {
        forall i, j | 0 <= i < j < |es[1..]| ensures es[1..][i].key != es[1..][j].key {
          assert es[1..][i] == es[i + 1] && es[1..][j] == es[j + 1];
        }
      }
      MergeIntoFindString(acc', es[1..], s);
      if e.key.I? {
        AppendKeepsStringKeys(acc, e.val, s);
      } else if e.key == S(s) {
        assert S(s) !in KeysOf(es[1..]) by {
          forall j | 0 <= j < |es[1..]| ensures es[1..][j].key != S(s) {
            assert es[1..][j] == es[j + 1];
          }
        }
      }
    }
  }

  /** Merging string-keyed arrays with no key in common is concatenation. */
  lemma {:induction false} MergeIntoDisjoint(acc: seq<Entry>, es: seq<Entry>)
    requires StringKeys(es) && DistinctKeys(es)
    requires forall j :: 0 <= j < |es| ==> es[j].key !in KeysOf(acc)
    ensures MergeInto(acc, es) == acc + es
    decreases |es|
  {
    if es != [] {
      MergeIntoFresh(acc, es);
      TailKeys(es);
      FreshAfterPut(acc, es);
      MergeIntoDisjoint(acc + [es[0]], es[1..]);
      ConcatHead(acc, es);
    }
  }

  /** Folding in an entry under a new string key appends it. */
  lemma MergeIntoFresh(acc: seq<Entry>, es: seq<Entry>)
    requires es != [] && es[0].key.S? && es[0].key !in KeysOf(acc)
    ensures MergeInto(acc, es) == MergeInto(acc + [es[0]], es[1..])
  {
    PutNew(acc, es[0].key, es[0].val);
  }

  lemma ConcatHead(acc: seq<Entry>, es: seq<Entry>)
    requires es != []
    ensures (acc + [es[0]]) + es[1..] == acc + es
  {
  }

  lemma TailKeys(es: seq<Entry>)
    requires es != []
    ensures DistinctKeys(es) ==> DistinctKeys(es[1..])
    ensures StringKeys(es) ==> StringKeys(es[1..])
  {
    assert forall j :: 0 <= j < |es[1..]| ==> es[1..][j] == es[j + 1];
  }

  lemma FreshAfterPut(acc: seq<Entry>, es: seq<Entry>)
    requires es != [] && DistinctKeys(es)
    requires forall j :: 0 <= j < |es| ==> es[j].key !in KeysOf(acc)
    ensures forall j :: 0 <= j < |es[1..]| ==> es[1..][j].key !in KeysOf(acc + [es[0]])
  {
    KeysAppend(acc, es[0]);
    forall j | 0 <= j < |es[1..]|
      ensures es[1..][j].key !in KeysOf(acc + [es[0]])
    {
      assert es[1..][j] == es[j + 1];
    }
  }

  /** `array_merge` of two string-keyed arrays with disjoint keys lays the
      second after the first, keeping both orders. */
  lemma MergeDisjoint(a: seq<Entry>, b: seq<Entry>)
    requires StringKeys(a) && DistinctKeys(a) && StringKeys(b) && DistinctKeys(b)
    requires forall j :: 0 <= j < |b| ==> b[j].key !in KeysOf(a)
    ensures Merge(a, b) == a + b
  {
    assert forall j :: 0 <= j < |a| ==> a[j].key !in KeysOf([]);
    MergeIntoDisjoint([], a);
    assert [] + a == a;
    MergeIntoDisjoint(a, b);
  }
}

/** The exceptions that cross the library's surface: its own (namespace
    Exceptions, whose files are not part of this model), the transport
    client's, and PHP's runtime errors. */
module Exceptions {

  datatype Exception =
    // the library's own exception classes
    | InvalidArgument(message: string)
    | DocumentExists(message: string)
    | NotFoundDocument(message: string)
    | RunTime(message: string)
    | BadMethodCall(message: string)
    | Elastic(message: string)
    // signals of the transport client
    | Conflict409(message: string)
    | Missing404(message: string)
    | Transport(message: string)
    // PHP runtime errors
    | TypeError(message: string)
    | PhpError(message: string)
    | ArgumentCountError(message: string)
  {
    /** Whether the exception is an ElasticException, the base class `resolve`
        catches. The library's own exception classes are taken to extend it;
        without that, `get('scroll')` would make every request fail. */
    predicate IsElastic() {
      InvalidArgument? || DocumentExists? || NotFoundDocument? || RunTime? || BadMethodCall? || Elastic?
    }
  }

  /** What a PHP call does: returns a value or throws. */
  datatype Outcome<T> = Ok(value: T) | Raise(ex: Exception)
}

/** Redaction of event data before it is stored (agentloopgate/bridge/service.py, _redact). */
module Redaction {
  import opened Ordering

  /** A JSON value; a literal is a number or a boolean. */
  datatype Json = Null | Text(text: string) | Literal(source: string) | Arr(items: seq<Json>)
    | Obj(fields: map<string, Json>)

  /** The key tests of the source and of the policy: `safe` keys keep their name, the value of a
      `sensitive` key is replaced whole, and `digest` recognizes a digest. */
  datatype Policy = Policy(safe: set<string>, sensitive: string -> bool, digest: string -> bool)

  const REDACTED: Json := Text("[REDACTED]")

  predicate DigestKey(name: string) { name == "event_digest" || name == "value_digest" }

  predicate KeepsName(p: Policy, name: string) { name in p.safe || p.sensitive(name) }

  // ---- The names of anonymous fields ----

  function Digits(n: nat): (r: string) {
    if n < 10 then [Digit(n)] else Digits(n / 10) + [Digit(n % 10)]
  }

  function Digit(n: nat): (r: char)
    requires n < 10
  {
    "0123456789"[n]
  }

  function FieldName(n: nat): (r: string) { "[FIELD_" + Digits(n) + "]" }

  lemma {:induction false} DigitsInjective(m: nat, n: nat)
    requires Digits(m) == Digits(n)
    ensures m == n
    decreases m
  {
    var a, b := Digits(m), Digits(n);
    assert a[|a| - 1] == Digit(m % 10) && b[|b| - 1] == Digit(n % 10);
    DigitInjective(m % 10, n % 10);
    if m >= 10 && n >= 10 {
      assert a[..|a| - 1] == Digits(m / 10) && b[..|b| - 1] == Digits(n / 10);
      DigitsInjective(m / 10, n / 10);
    } else if m >= 10 {
    } else if n >= 10 {
    }
  }

  lemma DigitInjective(m: nat, n: nat)
    requires m < 10 && n < 10 && Digit(m) == Digit(n)
    ensures m == n
  {
  }

  lemma FieldNameInjective(m: nat, n: nat)
    requires FieldName(m) == FieldName(n)
    ensures m == n
  {
    var a, b := FieldName(m), FieldName(n);
    assert a[7..|a| - 1] == Digits(m) && b[7..|b| - 1] == Digits(n);
    DigitsInjective(m, n);
  }

  /** The names of `safe` that a counter at `n` may still run into. */
  ghost function Ahead(safe: set<string>, n: nat): (r: set<string>) {
    set s | s in safe && IsField(s, n)
  }

  ghost predicate IsField(s: string, n: nat) {
    exists k: nat :: k >= n && FieldName(k) == s
  }

  lemma AheadShrinks(safe: set<string>, n: nat)
    requires FieldName(n) in safe
    ensures Ahead(safe, n + 1) < Ahead(safe, n)
  {
    assert IsField(FieldName(n), n);
    forall k: nat | k >= n + 1 ensures FieldName(k) != FieldName(n) {
      if FieldName(k) == FieldName(n) {
        FieldNameInjective(k, n);
      }
    }
    assert FieldName(n) in Ahead(safe, n) && FieldName(n) !in Ahead(safe, n + 1);
    forall s | s in Ahead(safe, n + 1) ensures s in Ahead(safe, n) {
      var k: nat :| k >= n + 1 && FieldName(k) == s;
    }
  }

  // ---- What redaction does ----

  function SafeNames(fields: map<string, Json>, p: Policy): (r: set<string>) {
    set name | name in fields && KeepsName(p, name)
  }

  /** Every number below `next` that is free is taken. */
  ghost predicate Dense(index: map<string, nat>, next: nat, safe: set<string>) {
    forall k: nat | k < next && FieldName(k) !in safe :: k in index.Values
  }

  /** Anonymous fields take the free numbers in the order of their names, each the least that is left. */
  ghost predicate Numbered(index: map<string, nat>, names: set<string>, safe: set<string>, p: Policy) {
    && (forall name | name in index :: Dense(index, index[name], safe))
    && (forall name :: name in index <==> name in names && !KeepsName(p, name))
    && (forall name | name in index :: FieldName(index[name]) !in safe)
    && (forall a, b | a in index && b in index && a != b && StringLe(a, b) :: index[a] < index[b])
  }

  function KeyFor(index: map<string, nat>, name: string): (r: string) {
    if name in index then FieldName(index[name]) else name
  }

  /** One field: a sensitive value is replaced whole, a digest under a digest key stays, and anything
      else is redacted in turn. */
  ghost predicate FieldRedacted(name: string, v: Json, r: Json, p: Policy)
    decreases v, 2
  {
    if p.sensitive(name) then r == REDACTED
    else if DigestKey(name) && v.Text? && p.digest(v.text) then r == v
    else Redacted(v, r, p)
  }

  ghost predicate Redacted(v: Json, r: Json, p: Policy)
    decreases v, 1
  {
    match v
    case Null => r == Null
    case Text(_) => r == REDACTED
    case Literal(_) => r == REDACTED
    case Arr(items) => r.Arr? && |r.items| == |items| && forall i | 0 <= i < |items| :: Redacted(items[i], r.items[i], p)
    case Obj(_) => r.Obj? && exists index :: ObjectRedacted(v, r.fields, index, p)
  }

  ghost predicate ObjectRedacted(v: Json, out: map<string, Json>, index: map<string, nat>, p: Policy)
    requires v.Obj?
    decreases v, 0
  {
    && Renamed(index, v.fields, out, p)
    && forall name | name in v.fields :: FieldRedacted(name, v.fields[name], out[KeyFor(index, name)], p)
  }

  /** `out` has the fields of `fields` under their new keys. */
  ghost predicate Renamed(index: map<string, nat>, fields: map<string, Json>, out: map<string, Json>, p: Policy) {
    && Numbered(index, fields.Keys, SafeNames(fields, p), p)
    && out.Keys == set name | name in fields :: KeyFor(index, name)
  }

  // ---- The recursive redaction ----

  ghost predicate Ascending(names: seq<string>) {
    forall i, j | 0 <= i < j < |names| :: names[i] != names[j] && StringLe(names[i], names[j])
  }

  lemma NameOrder()
    ensures TotalPreorder(StringLe)
  {
    forall a, b ensures StringLe(a, b) || StringLe(b, a) {
      StringTotal(a, b);
    }
    forall a, b, c | StringLe(a, b) && StringLe(b, c) ensures StringLe(a, c) {
      StringTransitive(a, b, c);
    }
  }

  lemma InsertName(name: string, names: seq<string>)
    requires Ascending(names) && name !in names
    ensures Ascending(Insert(StringLe, name, names))
    ensures forall x :: x in Insert(StringLe, name, names) <==> x in names || x == name
  {
    NameOrder();
    InsertKeeps(StringLe, name, names);
    var longer := Insert(StringLe, name, names);
    SameElements(longer, names + [name]);
    forall i, j | 0 <= i < j < |longer| ensures longer[i] != longer[j] {
      var k, l := Places(names + [name], longer, i, j);
    }
  }

  method SortNames(names: set<string>) returns (sorted: seq<string>)
    ensures Ascending(sorted) && forall name :: name in sorted <==> name in names
  {
    sorted := [];
    var rest := names;
    while rest != {}
      invariant rest <= names && Ascending(sorted)
      invariant forall name :: name in sorted <==> name in names - rest
      decreases |rest|
    {
      var name :| name in rest;
      InsertName(name, sorted);
      sorted := Insert(StringLe, name, sorted);
      rest := rest - {name};
    }
  }

  /** The next number whose field name is free. */
  method NextFree(safe: set<string>, from: nat) returns (n: nat)
    ensures n >= from && FieldName(n) !in safe
    ensures forall k | from <= k < n :: FieldName(k) in safe
  {
    n := from;
    while FieldName(n) in safe
      invariant n >= from && forall k | from <= k < n :: FieldName(k) in safe
      decreases Ahead(safe, n)
    {
      AheadShrinks(safe, n);
      n := n + 1;
    }
  }

  ghost function Named(names: seq<string>): (r: set<string>) { set name | name in names }

  /** The new keys of `names`. */
  ghost predicate Keyed(keys: map<string, string>, names: seq<string>, index: map<string, nat>) {
    keys.Keys == Named(names) && forall name | name in names :: keys[name] == KeyFor(index, name)
  }

  /** `out` holds the images of the names under their new keys, and nothing else. */
  ghost predicate Written(names: seq<string>, keys: map<string, string>, images: map<string, Json>,
                          out: map<string, Json>)
    requires keys.Keys == Named(names)
  {
    && images.Keys == Named(names)
    && out.Keys == (set name | name in names :: keys[name])
    && forall name | name in names :: out[keys[name]] == images[name]
  }

  lemma WrittenStep(names: seq<string>, name: string, keys: map<string, string>, key: string,
                    images: map<string, Json>, out: map<string, Json>, item: Json)
    requires keys.Keys == Named(names) && Written(names, keys, images, out) && name !in names
    requires forall x | x in names :: keys[x] != key
    ensures keys[name := key].Keys == Named(names + [name])
    ensures Written(names + [name], keys[name := key], images[name := item], out[key := item])
  {
    var all, keys', out' := names + [name], keys[name := key], out[key := item];
    assert Named(all) == Named(names) + {name};
    forall k | k in out' ensures k in set x | x in all :: keys'[x] {
      if k == key {
        assert name in all && keys'[name] == k;
      } else {
        var x :| x in names && keys[x] == k;
        assert x in all && keys'[x] == k;
      }
    }
  }

  ghost predicate Done(names: seq<string>, index: map<string, nat>, next: nat, keys: map<string, string>,
                       images: map<string, Json>, out: map<string, Json>, safe: set<string>, p: Policy) {
    && Numbered(index, Named(names), safe, p) && (forall name | name in index :: index[name] < next)
    && Dense(index, next, safe)
    && Keyed(keys, names, index) && Written(names, keys, images, out)
  }

  /** Two different fields never get the same key. */
  lemma KeysDiffer(index: map<string, nat>, names: set<string>, safe: set<string>, p: Policy, a: string, b: string)
    requires Numbered(index, names, safe, p) && a in names && b in names && a != b
    requires forall name | name in names && KeepsName(p, name) :: name in safe
    ensures KeyFor(index, a) != KeyFor(index, b)
  {
    StringTotal(a, b);
    if a in index && b in index && KeyFor(index, a) == KeyFor(index, b) {
      FieldNameInjective(index[a], index[b]);
    }
  }

  /** The index after one more field: a kept name needs no number, another one gets `n`. */
  function Indexed(index: map<string, nat>, name: string, n: nat, p: Policy): (r: map<string, nat>) {
    if KeepsName(p, name) then index else index[name := n]
  }

  lemma DenseStep(names: seq<string>, name: string, index: map<string, nat>, next: nat, n: nat, safe: set<string>,
                  p: Policy)
    requires name !in names && Numbered(index, Named(names), safe, p)
    requires Dense(index, next, safe) && next <= n
    requires !KeepsName(p, name) ==> FieldName(n) !in safe && forall k | next <= k < n :: FieldName(k) in safe
    ensures var index' := Indexed(index, name, n, p);
            && (forall a | a in index' :: Dense(index', index'[a], safe))
            && Dense(index', if KeepsName(p, name) then next else n + 1, safe)
  {
    var index' := Indexed(index, name, n, p);
    forall k | k in index.Values ensures k in index'.Values {
      var a :| a in index && index[a] == k;
      assert a in index' && index'[a] == k;
    }
    if !KeepsName(p, name) {
      assert index'[name] == n;
    }
  }

  lemma NumberedStep(names: seq<string>, name: string, index: map<string, nat>, next: nat, n: nat, safe: set<string>,
                     p: Policy)
    requires Ascending(names + [name]) && Numbered(index, Named(names), safe, p)
    requires (forall a | a in index :: index[a] < next) && Dense(index, next, safe) && next <= n
    requires !KeepsName(p, name) ==> FieldName(n) !in safe && forall k | next <= k < n :: FieldName(k) in safe
    ensures name !in names && Numbered(Indexed(index, name, n, p), Named(names + [name]), safe, p)
    ensures Dense(Indexed(index, name, n, p), if KeepsName(p, name) then next else n + 1, safe)
  {
    var all := names + [name];
    forall a | a in names ensures a != name && StringLe(a, name) {
      var i :| 0 <= i < |names| && names[i] == a;
      assert all[i] == a && all[|names|] == name;
      StringTotal(a, name);
    }
    DenseStep(names, name, index, next, n, safe, p);
    forall a | a in index ensures !StringLe(name, a) {
      StringTotal(a, name);
    }
  }

  lemma NextName(names: seq<string>, k: nat, fields: map<string, Json>, p: Policy)
    requires Ascending(names) && k < |names| && forall name | name in names :: name in fields
    ensures Ascending(names[..k] + [names[k]]) && names[k] !in names[..k]
    ensures forall x | x in names[..k] + [names[k]] && KeepsName(p, x) :: x in SafeNames(fields, p)
  {
  }

  lemma KeysStep(names: seq<string>, name: string, index: map<string, nat>, index': map<string, nat>, n: nat,
                 keys: map<string, string>, safe: set<string>, p: Policy)
    requires name !in names && index' == Indexed(index, name, n, p) && Keyed(keys, names, index)
    requires Numbered(index, Named(names), safe, p) && Numbered(index', Named(names + [name]), safe, p)
    requires forall x | x in names + [name] && KeepsName(p, x) :: x in safe
    ensures forall x | x in names :: keys[x] != KeyFor(index', name)
    ensures Keyed(keys[name := KeyFor(index', name)], names + [name], index')
  {
    forall x | x in names ensures keys[x] == KeyFor(index', x) && keys[x] != KeyFor(index', name) {
      KeysDiffer(index', Named(names + [name]), safe, p, x, name);
    }
  }

  lemma DoneStep(names: seq<string>, name: string, index: map<string, nat>, next: nat, n: nat,
                 keys: map<string, string>, images: map<string, Json>, out: map<string, Json>, item: Json,
                 safe: set<string>, p: Policy)
    requires Ascending(names + [name]) && Done(names, index, next, keys, images, out, safe, p)
    requires next <= n
    requires !KeepsName(p, name) ==> FieldName(n) !in safe && forall k | next <= k < n :: FieldName(k) in safe
    requires forall x | x in names + [name] && KeepsName(p, x) :: x in safe
    ensures var index' := Indexed(index, name, n, p);
            var key := KeyFor(index', name);
            && key == (if KeepsName(p, name) then name else FieldName(n))
            && Done(names + [name], index', if KeepsName(p, name) then next else n + 1, keys[name := key],
                    images[name := item], out[key := item], safe, p)
  {
    var index' := Indexed(index, name, n, p);
    NumberedStep(names, name, index, next, n, safe, p);
    KeysStep(names, name, index, index', n, keys, safe, p);
    WrittenStep(names, name, keys, KeyFor(index', name), images, out, item);
  }

  lemma AllDone(v: Json, names: seq<string>, index: map<string, nat>, next: nat, keys: map<string, string>,
                images: map<string, Json>, out: map<string, Json>, p: Policy)
    requires v.Obj? && (forall name :: name in names <==> name in v.fields)
    requires Done(names, index, next, keys, images, out, SafeNames(v.fields, p), p)
    requires forall name | name in names :: FieldRedacted(name, v.fields[name], images[name], p)
    ensures Redacted(v, Obj(out), p)
  {
    assert Named(names) == v.fields.Keys;
    assert ObjectRedacted(v, out, index, p);
  }

  /** The new key of a field, and the number to go on with. */
  method KeyOf(name: string, safe: set<string>, next: nat, p: Policy) returns (key: string, n: nat, after: nat)
    ensures next <= n && key == (if KeepsName(p, name) then name else FieldName(n))
    ensures !KeepsName(p, name) ==> FieldName(n) !in safe && forall k | next <= k < n :: FieldName(k) in safe
    ensures after == if KeepsName(p, name) then next else n + 1
  {
    if KeepsName(p, name) {
      return name, next, next;
    }
    var free := NextFree(safe, next);
    return FieldName(free), free, free + 1;
  }

  method RedactFields(v: Json, p: Policy) returns (r: Json)
    requires v.Obj?
    ensures Redacted(v, r, p)
    decreases v, 0
  {
    var names := SortNames(v.fields.Keys);
    var safe := SafeNames(v.fields, p);
    var out: map<string, Json> := map[];
    var next: nat := 0;
    ghost var index: map<string, nat> := map[];
    ghost var keys: map<string, string> := map[];
    ghost var images: map<string, Json> := map[];
    for k := 0 to |names|
      invariant Done(names[..k], index, next, keys, images, out, safe, p)
      invariant AllRedacted(names[..k], v.fields, images, p)
    {
      var name := names[k];
      assert name in names && v.fields[name] < v;
      var key, n, after := KeyOf(name, safe, next, p);
      var item := RedactField(name, v, p);
      FieldStep(names, k, v.fields, index, next, n, keys, images, out, item, safe, p);
      index, keys, images := Indexed(index, name, n, p), keys[name := key], images[name := item];
      out, next := out[key := item], after;
    }
    assert names[..|names|] == names;
    AllDone(v, names, index, next, keys, images, out, p);
    r := Obj(out);
  }

  lemma FieldStep(names: seq<string>, k: nat, fields: map<string, Json>, index: map<string, nat>, next: nat, n: nat,
                  keys: map<string, string>, images: map<string, Json>, out: map<string, Json>, item: Json,
                  safe: set<string>, p: Policy)
    requires Ascending(names) && k < |names| && (forall name | name in names :: name in fields)
    requires safe == SafeNames(fields, p) && FieldRedacted(names[k], fields[names[k]], item, p)
    requires Done(names[..k], index, next, keys, images, out, safe, p) && AllRedacted(names[..k], fields, images, p)
    requires next <= n
    requires !KeepsName(p, names[k]) ==> FieldName(n) !in safe && forall i | next <= i < n :: FieldName(i) in safe
    ensures var name, kept := names[k], KeepsName(p, names[k]);
            var key := if kept then name else FieldName(n);
            && Done(names[..k + 1], Indexed(index, name, n, p), if kept then next else n + 1, keys[name := key],
                    images[name := item], out[key := item], safe, p)
            && AllRedacted(names[..k + 1], fields, images[name := item], p)
  {
    assert names[..k + 1] == names[..k] + [names[k]];
    NextName(names, k, fields, p);
    RedactedStep(names[..k], names[k], fields, images, item, p);
    DoneStep(names[..k], names[k], index, next, n, keys, images, out, item, safe, p);
  }

  lemma RedactedStep(names: seq<string>, name: string, fields: map<string, Json>, images: map<string, Json>,
                     item: Json, p: Policy)
    requires AllRedacted(names, fields, images, p) && name in fields && FieldRedacted(name, fields[name], item, p)
    requires name !in names
    ensures AllRedacted(names + [name], fields, images[name := item], p)
  {
  }

  ghost predicate AllRedacted(names: seq<string>, fields: map<string, Json>, images: map<string, Json>, p: Policy) {
    forall x | x in names :: x in fields && x in images && FieldRedacted(x, fields[x], images[x], p)
  }

  method RedactField(name: string, v: Json, p: Policy) returns (r: Json)
    requires v.Obj? && name in v.fields
    ensures FieldRedacted(name, v.fields[name], r, p)
    decreases v.fields[name], 2
  {
    var item := v.fields[name];
    if p.sensitive(name) {
      return REDACTED;
    }
    if DigestKey(name) && item.Text? && p.digest(item.text) {
      return item;
    }
    r := RedactValue(item, p);
  }

  /** Redacts a value: every text and number in it is replaced. */
  method RedactValue(v: Json, p: Policy) returns (r: Json)
    ensures Redacted(v, r, p)
    decreases v, 1
  {
    match v
    case Null => return Null;
    case Text(_) => return REDACTED;
    case Literal(_) => return REDACTED;
    case Obj(_) => r := RedactFields(v, p);
    case Arr(items) =>
      var redacted: seq<Json> := [];
      for k := 0 to |items|
        invariant |redacted| == k && forall i | 0 <= i < k :: Redacted(items[i], redacted[i], p)
      {
        var item := RedactValue(items[k], p);
        redacted := redacted + [item];
      }
      return Arr(redacted);
  }

  // ---- Main results ----

  /** If an anonymous field had two numbers, an earlier one would have two as well. */
  lemma {:induction false} NumbersAgree(index: map<string, nat>, other: map<string, nat>, names: set<string>,
                                        safe: set<string>, p: Policy, a: string)
    requires Numbered(index, names, safe, p) && Numbered(other, names, safe, p) && a in index
    ensures index[a] == other[a]
    decreases index[a] + other[a]
  {
    if index[a] < other[a] {
      assert index[a] in other.Values;
      var b :| b in other && other[b] == index[a];
      StringTotal(a, b);
      NumbersAgree(index, other, names, safe, p, b);
    } else if other[a] < index[a] {
      assert other[a] in index.Values;
      var b :| b in index && index[b] == other[a];
      StringTotal(a, b);
      NumbersAgree(index, other, names, safe, p, b);
    }
  }

  lemma {:induction false} FieldIsUnique(name: string, v: Json, r: Json, other: Json, p: Policy)
    requires FieldRedacted(name, v, r, p) && FieldRedacted(name, v, other, p)
    ensures r == other
    decreases v, 2
  {
    if !p.sensitive(name) && !(DigestKey(name) && v.Text? && p.digest(v.text)) {
      RedactedIsUnique(v, r, other, p);
    }
  }

  lemma {:induction false} ObjectIsUnique(v: Json, r: map<string, Json>, other: map<string, Json>,
                                          index: map<string, nat>, index': map<string, nat>, p: Policy)
    requires v.Obj? && ObjectRedacted(v, r, index, p) && ObjectRedacted(v, other, index', p)
    ensures r == other
    decreases v, 0
  {
    forall a | a in index ensures index[a] == index'[a] {
      NumbersAgree(index, index', v.fields.Keys, SafeNames(v.fields, p), p, a);
    }
    assert index == index';
    forall key | key in r ensures r[key] == other[key] {
      var name :| name in v.fields && KeyFor(index, name) == key;
      FieldIsUnique(name, v.fields[name], r[key], other[key], p);
    }
  }

  /** Redaction is determined: a value has one redacted form, field names included. */
  lemma {:induction false} RedactedIsUnique(v: Json, r: Json, other: Json, p: Policy)
    requires Redacted(v, r, p) && Redacted(v, other, p)
    ensures r == other
    decreases v, 1
  {
    match v
    case Arr(items) =>
      forall i | 0 <= i < |items| ensures r.items[i] == other.items[i] {
        RedactedIsUnique(items[i], r.items[i], other.items[i], p);
      }
    case Obj(_) =>
      var index :| ObjectRedacted(v, r.fields, index, p);
      var index' :| ObjectRedacted(v, other.fields, index', p);
      ObjectIsUnique(v, r.fields, other.fields, index, index', p);
    case _ =>
  }

  /** No two fields of an object are merged. */
  lemma FieldsSurvive(v: Json, r: Json, p: Policy)
    requires v.Obj? && Redacted(v, r, p)
    ensures r.Obj? && |r.fields| == |v.fields|
  {
    var fields := v.fields;
    var index :| ObjectRedacted(v, r.fields, index, p);
    forall a, b | a in fields && b in fields && a != b ensures KeyFor(index, a) != KeyFor(index, b) {
      KeysDiffer(index, fields.Keys, SafeNames(fields, p), p, a, b);
    }
    ImageCard(fields.Keys, index, r.fields.Keys);
    assert |r.fields| == |r.fields.Keys| && |fields| == |fields.Keys|;
  }

  lemma {:induction false} ImageCard(names: set<string>, index: map<string, nat>, image: set<string>)
    requires image == set name | name in names :: KeyFor(index, name)
    requires forall a, b | a in names && b in names && a != b :: KeyFor(index, a) != KeyFor(index, b)
    ensures |image| == |names|
    decreases |names|
  {
    if names == {} {
    } else {
      var name :| name in names;
      var less := set x | x in names - {name} :: KeyFor(index, x);
      ImageCard(names - {name}, index, less);
      assert image == less + {KeyFor(index, name)};
    }
  }

  /** The number that a string of decimal digits denotes. */
  ghost function Denoted(digits: string): (r: int) {
    if digits == "" then 0 else 10 * Denoted(digits[..|digits| - 1]) + (digits[|digits| - 1] as int - '0' as int)
  }

  lemma DigitDenotes(n: nat)
    requires n < 10
    ensures Digit(n) as int - '0' as int == n
  {
  }

  lemma {:induction false} DigitsDenote(n: nat)
    ensures Denoted(Digits(n)) == n && Digits(n) != ""
  {
    DigitDenotes(n % 10);
    if n < 10 {
      assert Digits(n)[..0] == "";
    } else {
      DigitsDenote(n / 10);
      assert Digits(n)[..|Digits(n)| - 1] == Digits(n / 10);
    }
  }

  /** What becomes of one field: a sensitive or safe key keeps its name, any other gets an anonymous one; a
      sensitive value is replaced, and a digest under one of the two digest keys is kept. */
  lemma FieldImage(v: Json, r: Json, p: Policy, name: string)
    requires v.Obj? && Redacted(v, r, p) && name in v.fields
    ensures r.Obj?
    ensures p.sensitive(name) ==> name in r.fields && r.fields[name] == Text("[REDACTED]")
    ensures name in p.safe ==> name in r.fields
    ensures !p.sensitive(name) && name in p.safe && (name == "event_digest" || name == "value_digest")
            && v.fields[name].Text? && p.digest(v.fields[name].text) ==>
              name in r.fields && r.fields[name] == v.fields[name]
    ensures !p.sensitive(name) && name !in p.safe ==>
              exists digits :: "[FIELD_" + digits + "]" in r.fields && digits != ""
  {
    var index :| ObjectRedacted(v, r.fields, index, p);
    assert FieldRedacted(name, v.fields[name], r.fields[KeyFor(index, name)], p);
    if name in index {
      DigitsDenote(index[name]);
      assert FieldName(index[name]) == "[FIELD_" + Digits(index[name]) + "]";
      assert FieldName(index[name]) in r.fields;
    }
  }

  /** The fields that are neither sensitive nor safe get numbers in the order of their names.  A number is
      free, which means that no field with that name is kept, and it is the least one: every smaller number is
      in the result too, as a kept field or as the anonymous key of an earlier one. */
  lemma AnonymousNumbers(v: Json, r: Json, p: Policy) returns (number: map<string, nat>)
    requires v.Obj? && Redacted(v, r, p)
    ensures r.Obj?
    ensures forall name :: name in number <==> name in v.fields && name !in p.safe && !p.sensitive(name)
    ensures forall a, b | a in number && b in number && a != b && StringLe(a, b) :: number[a] < number[b]
    ensures forall name | name in number ::
              && (FieldName(number[name]) in v.fields ==>
                    FieldName(number[name]) !in p.safe && !p.sensitive(FieldName(number[name])))
              && forall k: nat | k <= number[name] :: FieldName(k) in r.fields
  {
    number :| ObjectRedacted(v, r.fields, number, p);
    forall name, k: nat | name in number && k <= number[name] ensures FieldName(k) in r.fields {
      if FieldName(k) in SafeNames(v.fields, p) {
        assert KeyFor(number, FieldName(k)) in r.fields;
      } else if k < number[name] {
        assert k in number.Values;
        var other :| other in number && number[other] == k;
        assert KeyFor(number, other) in r.fields;
      } else {
        assert KeyFor(number, name) in r.fields;
      }
    }
  }

  /** Nothing but the replacement text is left in a value, except digests under a digest key. */
  predicate Clean(j: Json, p: Policy)
    decreases j, 0
  {
    match j
    case Null => true
    case Text(_) => j == REDACTED
    case Literal(_) => false
    case Arr(items) => forall i | 0 <= i < |items| :: Clean(items[i], p)
    case Obj(fields) => forall key | key in fields :: FieldClean(key, fields[key], p)
  }

  predicate FieldClean(key: string, j: Json, p: Policy)
    decreases j, 1
  {
    Clean(j, p) || (DigestKey(key) && j.Text? && p.digest(j.text))
  }

  lemma {:induction false} FieldIsClean(name: string, v: Json, r: Json, p: Policy, key: string)
    requires FieldRedacted(name, v, r, p) && "event_digest" in p.safe && "value_digest" in p.safe
    requires DigestKey(name) ==> key == name
    ensures FieldClean(key, r, p)
    decreases v, 2
  {
    if !p.sensitive(name) && !(DigestKey(name) && v.Text? && p.digest(v.text)) {
      RedactedIsClean(v, r, p);
    }
  }

  lemma {:induction false} ObjectIsClean(v: Json, out: map<string, Json>, index: map<string, nat>, p: Policy, key: string)
    requires v.Obj? && ObjectRedacted(v, out, index, p) && key in out
    requires "event_digest" in p.safe && "value_digest" in p.safe
    ensures FieldClean(key, out[key], p)
    decreases v, 0
  {
    var name :| name in v.fields && KeyFor(index, name) == key;
    FieldIsClean(name, v.fields[name], out[key], p, key);
  }

  /** Nothing of a value survives redaction but its shape, the kept key names, and digests. */
  lemma {:induction false} RedactedIsClean(v: Json, r: Json, p: Policy)
    requires Redacted(v, r, p) && "event_digest" in p.safe && "value_digest" in p.safe
    ensures Clean(r, p)
    decreases v, 1
  {
    match v
    case Arr(items) =>
      forall i | 0 <= i < |items| ensures Clean(r.items[i], p) {
        RedactedIsClean(items[i], r.items[i], p);
      }
    case Obj(_) =>
      var index :| ObjectRedacted(v, r.fields, index, p);
      forall key | key in r.fields ensures FieldClean(key, r.fields[key], p) {
        ObjectIsClean(v, r.fields, index, p, key);
      }
    case _ =>
  }
}

/**
  `partialClone` of core/aws-lsp-core/src/util/collectionUtils.ts with `truncate` of
  core/aws-lsp-core/src/util/text.ts: copy a tree of values down to a depth, leaving out keys and
  shortening strings.
 */
module PartialClone {

  /** A JavaScript value as a tree.  `Opaque` is anything that is returned as it is: functions, and
      objects without own properties such as dates.  No object has an own key "__proto__". */
  datatype Value =
    | Undefined | Null | Bool(b: bool) | Num(n: int) | Str(s: string) | Opaque(tag: nat)
    | Obj(fields: seq<Field>)
    | Arr(items: seq<Value>)

  datatype Field = Field(key: string, value: Value)

  /** An absent replacement is `Undefined`, an absent string limit is 0. */
  datatype Options = Options(omitKeys: set<string>, replacement: Value, maxStringLength: int)

  const SUFFIX := "..."

  function Abs(n: int): nat {
    if n < 0 then -n else n
  }

  /** A negative limit keeps the end of the string. */
  function Truncate(s: string, n: int, suffix: string): string {
    if |s| <= Abs(n) then s
    else if n < 0 then suffix + s[|s| - Abs(n)..]
    else s[..n] + suffix
  }

  predicate Truthy(v: Value) {
    match v
    case Undefined => false
    case Null => false
    case Bool(b) => b
    case Num(n) => n != 0
    case Str(s) => s != ""
    case _ => true
  }

  /** What stands in for an object that is too deep or a property that is left out. */
  function Cut(o: Options, empty: Value): Value {
    if Truthy(o.replacement) then o.replacement else empty
  }

  function Shorten(o: Options, s: string): string {
    if o.maxStringLength != 0 then Truncate(s, o.maxStringLength, SUFFIX) else s
  }

  /** The property name of an array element. */
  function IndexKey(i: nat): string {
    if i < 10 then [('0' as int + i) as char] else IndexKey(i / 10) + IndexKey(i % 10)
  }

  /** An empty object has no property and is returned; an empty array has `length` and is not. */
  function Clone(v: Value, depth: int, o: Options): Value
    decreases v, 0
  {
    match v
    case Str(s) => Str(Shorten(o, s))
    case Obj(fields) =>
      if fields == [] then v
      else if depth == 0 then Cut(o, Obj([]))
      else Obj(seq(|fields|, i requires 0 <= i < |fields| => CloneField(fields[i], depth, o)))
    case Arr(items) =>
      if depth == 0 then Cut(o, Arr([]))
      else Arr(seq(|items|, i requires 0 <= i < |items| => CloneItem(items[i], i, depth, o)))
    case _ => v
  }

  function CloneField(f: Field, depth: int, o: Options): Field
    decreases f, 0
  {
    Field(f.key, if f.key in o.omitKeys then Cut(o, Obj([])) else Clone(f.value, depth - 1, o))
  }

  function CloneItem(item: Value, i: nat, depth: int, o: Options): Value
    decreases item, 1
  {
    if IndexKey(i) in o.omitKeys then Cut(o, Arr([])) else Clone(item, depth - 1, o)
  }

  /** The source's own form: the copy is filled key by key in a loop. */
  method PartialClone(v: Value, depth: int, o: Options) returns (r: Value)
    ensures r == Clone(v, depth, o)
    decreases v
  {
    hide Cut, Shorten, IndexKey;
    if v.Str? {
      return Str(Shorten(o, v.s));
    }
    if !(v.Obj? || v.Arr?) || v == Obj([]) {
      return v;
    }
    if depth == 0 {
      return Cut(o, if v.Arr? then Arr([]) else Obj([]));
    }
    if v.Arr? {
      var items := [];
      for i := 0 to |v.items|
        invariant |items| == i
        invariant forall j | 0 <= j < i :: items[j] == CloneItem(v.items[j], j, depth, o)
      {
        var item := Cut(o, Arr([]));
        if IndexKey(i) !in o.omitKeys {
          item := PartialClone(v.items[i], depth - 1, o);
        }
        items := items + [item];
      }
      r := Arr(items);
    } else {
      var fields := [];
      for i := 0 to |v.fields|
        invariant |fields| == i
        invariant forall j | 0 <= j < i :: fields[j] == CloneField(v.fields[j], depth, o)
      {
        var value := Cut(o, Obj([]));
        if v.fields[i].key !in o.omitKeys {
          value := PartialClone(v.fields[i].value, depth - 1, o);
        }
        fields := fields + [Field(v.fields[i].key, value)];
      }
      r := Obj(fields);
    }
  }

  // ---------------------------------------------------------------- shortening

  lemma TruncateIdempotent(s: string, n: int, suffix: string)
    ensures Truncate(Truncate(s, n, suffix), n, suffix) == Truncate(s, n, suffix)
  {
  }

  /** A string up to the limit is kept, one at the limit included.  A longer one has the limit's length
      plus the suffix afterwards, so it can only come out unchanged if it already looked like that. */
  lemma TruncateUnchangedIff(s: string, n: int, suffix: string)
    ensures |s| > Abs(n) ==> |Truncate(s, n, suffix)| == Abs(n) + |suffix|
    ensures Truncate(s, n, suffix) == s <==>
      |s| <= Abs(n) || (|s| == Abs(n) + |suffix| && (if n < 0 then suffix == s[..|suffix|] else suffix == s[n..]))
  {
    if |s| == Abs(n) + |suffix| && n >= 0 {
      assert s == s[..n] + s[n..];
    } else if |s| == Abs(n) + |suffix| {
      assert s == s[..|suffix|] + s[|suffix|..];
    }
  }

  /** Which part of a longer string is kept, and where the suffix goes. */
  lemma TruncateKeeps(s: string, n: int, suffix: string)
    requires |s| > Abs(n)
    ensures n >= 0 ==> s[..n] <= Truncate(s, n, suffix) && Truncate(s, n, suffix)[n..] == suffix
    ensures n < 0 ==>
      suffix <= Truncate(s, n, suffix) && Truncate(s, n, suffix)[|suffix|..] == s[|s| + n..]
  {
  }

  lemma ShortenIdempotent(o: Options, s: string)
    ensures Shorten(o, Shorten(o, s)) == Shorten(o, s)
  {
    TruncateIdempotent(s, o.maxStringLength, SUFFIX);
  }

  // ---------------------------------------------------------------- what a clone looks like

  /** A clone from the outside.  A string is shortened if there is a limit; any other leaf and an empty
      object are returned as they are; at depth 0 a container becomes the replacement, or else an empty
      container of its kind. */
  lemma CloneOutside(v: Value, depth: int, o: Options)
    ensures v.Str? ==>
      Clone(v, depth, o) == Str(if o.maxStringLength == 0 then v.s else Truncate(v.s, o.maxStringLength, "..."))
    ensures !v.Str? && !v.Arr? && (v.Obj? ==> v.fields == []) ==> Clone(v, depth, o) == v
    ensures v.Obj? && v.fields != [] && depth == 0 ==>
      Clone(v, depth, o) == if Truthy(o.replacement) then o.replacement else Obj([])
    ensures v.Arr? && depth == 0 ==> Clone(v, depth, o) == if Truthy(o.replacement) then o.replacement else Arr([])
    ensures v.Obj? && v.fields != [] && depth != 0 ==>
      Clone(v, depth, o).Obj? && |Clone(v, depth, o).fields| == |v.fields|
    ensures v.Arr? && depth != 0 ==> Clone(v, depth, o).Arr? && |Clone(v, depth, o).items| == |v.items|
  {
  }

  /** A child of a clone.  Keys stay in place; an omitted child is the replacement, or else an empty
      container of its parent's kind; any other child is a clone to one level less. */
  lemma CloneInside(v: Value, depth: int, o: Options, i: nat)
    requires depth != 0 && (v.Obj? || v.Arr?) && i < (if v.Obj? then |v.fields| else |v.items|)
    ensures v.Obj? ==>
      && Clone(v, depth, o).Obj? && |Clone(v, depth, o).fields| == |v.fields|
      && var f, g := v.fields[i], Clone(v, depth, o).fields[i];
         && g.key == f.key
         && (f.key !in o.omitKeys ==> g.value == Clone(f.value, depth - 1, o))
         && (f.key in o.omitKeys ==> g.value == if Truthy(o.replacement) then o.replacement else Obj([]))
    ensures v.Arr? ==>
      && Clone(v, depth, o).Arr? && |Clone(v, depth, o).items| == |v.items|
      && var item := Clone(v, depth, o).items[i];
         && (IndexKey(i) !in o.omitKeys ==> item == Clone(v.items[i], depth - 1, o))
         && (IndexKey(i) in o.omitKeys ==> item == if Truthy(o.replacement) then o.replacement else Arr([]))
  {
    hide Shorten, IndexKey, Truthy;
    if v.Obj? {
      assert Clone(v, depth, o).fields[i] == CloneField(v.fields[i], depth, o);
    } else {
      assert Clone(v, depth, o).items[i] == CloneItem(v.items[i], i, depth, o);
    }
  }

  /** The number that a string of decimal digits stands for. */
  function DecimalValue(s: string): int {
    if s == "" then 0 else 10 * DecimalValue(s[..|s| - 1]) + (s[|s| - 1] as int - '0' as int)
  }

  /** The property name of an array element is its index in decimal, without leading zeros. */
  lemma {:induction false} IndexKeyIsDecimal(i: nat)
    ensures IndexKey(i) != "" && (forall k | 0 <= k < |IndexKey(i)| :: '0' <= IndexKey(i)[k] <= '9')
    ensures DecimalValue(IndexKey(i)) == i
    ensures IndexKey(i)[0] == '0' <==> i == 0
  {
    if i < 10 {
      assert IndexKey(i)[..0] == "";
    } else {
      IndexKeyIsDecimal(i / 10);
      var front, last := IndexKey(i / 10), IndexKey(i % 10);
      assert |last| == 1 && last[0] as int == '0' as int + i % 10;
      assert (front + last)[..|front|] == front;
      assert DecimalValue(front + last) == 10 * (i / 10) + i % 10;
    }
  }

  // ---------------------------------------------------------------- composition

  /** Cloning leaves the replacement alone, at every depth. */
  ghost predicate Stable(o: Options) {
    Truthy(o.replacement) ==> forall k: nat :: Clone(o.replacement, k, o) == o.replacement
  }

  function Min(m: int, n: int): int {
    if m < n then m else n
  }

  lemma CutIsFixed(o: Options, empty: Value, n: nat)
    requires Stable(o) && (empty == Obj([]) || empty == Arr([]))
    ensures Clone(Cut(o, empty), n, o) == Cut(o, empty)
  {
    if !Truthy(o.replacement) && n > 0 && empty == Arr([]) {
      assert Clone(empty, n, o).items == [];
    }
  }

  /** A clone's children, one by one. */
  lemma CloneAt(v: Value, depth: int, o: Options)
    requires depth != 0
    ensures v.Obj? && v.fields != [] ==>
      && Clone(v, depth, o).Obj? && |Clone(v, depth, o).fields| == |v.fields|
      && forall i | 0 <= i < |v.fields| :: Clone(v, depth, o).fields[i] == CloneField(v.fields[i], depth, o)
    ensures v.Arr? ==>
      && Clone(v, depth, o).Arr? && |Clone(v, depth, o).items| == |v.items|
      && forall i | 0 <= i < |v.items| :: Clone(v, depth, o).items[i] == CloneItem(v.items[i], i, depth, o)
  {
    hide Cut, Shorten, IndexKey;
  }

  /** Cloning to depth m and then to depth n is cloning once to the smaller depth. */
  lemma {:induction false} Compose(v: Value, m: nat, n: nat, o: Options)
    requires Stable(o)
    ensures Clone(Clone(v, m, o), n, o) == Clone(v, Min(m, n), o)
    decreases v
  {
    hide Stable, Cut, Shorten, IndexKey, Truthy;
    match v
    case Str(s) => ShortenIdempotent(o, s);
    case Obj(fields) =>
      if fields == [] {
      } else if m == 0 {
        CutIsFixed(o, Obj([]), n);
      } else if n == 0 {
        CloneAt(v, m, o);
      } else {
        ComposeFields(v, m, n, o);
      }
    case Arr(items) =>
      if m == 0 {
        CutIsFixed(o, Arr([]), n);
      } else if n == 0 {
        CloneAt(v, m, o);
      } else {
        ComposeItems(v, m, n, o);
      }
    case _ =>
  }

  lemma {:induction false} ComposeFields(v: Value, m: nat, n: nat, o: Options)
    requires Stable(o) && v.Obj? && v.fields != [] && m > 0 && n > 0
    ensures Clone(Clone(v, m, o), n, o) == Clone(v, Min(m, n), o)
    decreases v, 0
  {
    hide Clone, Stable, Cut, Shorten, IndexKey;
    var c := Clone(v, m, o);
    CloneAt(v, m, o);
    CloneAt(c, n, o);
    CloneAt(v, Min(m, n), o);
    forall i | 0 <= i < |v.fields|
      ensures CloneField(c.fields[i], n, o) == CloneField(v.fields[i], Min(m, n), o)
    {
      Compose(v.fields[i].value, m - 1, n - 1, o);
    }
    assert Clone(c, n, o).fields == Clone(v, Min(m, n), o).fields;
  }

  lemma {:induction false} ComposeItems(v: Value, m: nat, n: nat, o: Options)
    requires Stable(o) && v.Arr? && m > 0 && n > 0
    ensures Clone(Clone(v, m, o), n, o) == Clone(v, Min(m, n), o)
    decreases v, 0
  {
    hide Clone, Stable, Cut, Shorten, IndexKey;
    var c := Clone(v, m, o);
    CloneAt(v, m, o);
    CloneAt(c, n, o);
    CloneAt(v, Min(m, n), o);
    forall i | 0 <= i < |v.items|
      ensures CloneItem(c.items[i], i, n, o) == CloneItem(v.items[i], i, Min(m, n), o)
    {
      Compose(v.items[i], m - 1, n - 1, o);
    }
    assert Clone(c, n, o).items == Clone(v, Min(m, n), o).items;
  }

  function Height(v: Value): nat {
    match v
    case Obj(fields) => FieldsHeight(fields)
    case Arr(items) => ItemsHeight(items)
    case _ => 0
  }

  function FieldsHeight(fields: seq<Field>): nat {
    if fields == [] then 0
    else
      var h, rest := 1 + Height(fields[|fields| - 1].value), FieldsHeight(fields[..|fields| - 1]);
      if h > rest then h else rest
  }

  function ItemsHeight(items: seq<Value>): nat {
    if items == [] then 0
    else
      var h, rest := 1 + Height(items[|items| - 1]), ItemsHeight(items[..|items| - 1]);
      if h > rest then h else rest
  }

  lemma {:induction false} FieldsHeightIsMax(fields: seq<Field>, bound: nat)
    ensures FieldsHeight(fields) <= bound <==> forall i | 0 <= i < |fields| :: Height(fields[i].value) < bound
  {
    if fields != [] {
      FieldsHeightIsMax(fields[..|fields| - 1], bound);
      assert forall i | 0 <= i < |fields| - 1 :: fields[..|fields| - 1][i] == fields[i];
    }
  }

  lemma {:induction false} ItemsHeightIsMax(items: seq<Value>, bound: nat)
    ensures ItemsHeight(items) <= bound <==> forall i | 0 <= i < |items| :: Height(items[i]) < bound
  {
    if items != [] {
      ItemsHeightIsMax(items[..|items| - 1], bound);
      assert forall i | 0 <= i < |items| - 1 :: items[..|items| - 1][i] == items[i];
    }
  }

  /** A leaf that shortening leaves alone, or an empty object. */
  predicate FixedLeaf(v: Value, o: Options) {
    match v
    case Str(s) => Shorten(o, s) == s
    case Obj(fields) => fields == []
    case Arr(_) => false
    case _ => true
  }

  /** A replacement that a caller can tell to be stable by looking at it: a fixed leaf, or an object or
      array whose children are all fixed leaves under keys that are not omitted. */
  predicate Flat(v: Value, o: Options) {
    match v
    case Obj(fields) => forall i | 0 <= i < |fields| :: fields[i].key !in o.omitKeys && FixedLeaf(fields[i].value, o)
    case Arr(items) => forall i | 0 <= i < |items| :: IndexKey(i) !in o.omitKeys && FixedLeaf(items[i], o)
    case _ => FixedLeaf(v, o)
  }

  lemma FixedLeafClones(v: Value, k: int, o: Options)
    requires FixedLeaf(v, o)
    ensures Clone(v, k, o) == v
  {
    hide Shorten;
  }

  lemma FlatIsStable(o: Options, k: nat)
    requires Truthy(o.replacement) && Flat(o.replacement, o)
    ensures Clone(o.replacement, k, o) == o.replacement
  {
    hide Shorten, IndexKey;
    var v := o.replacement;
    if k > 0 {
      if v.Obj? {
        forall i | 0 <= i < |v.fields| ensures CloneField(v.fields[i], k, o) == v.fields[i] {
          FixedLeafClones(v.fields[i].value, k - 1, o);
        }
        if v.fields != [] {
          assert Clone(v, k, o).fields == v.fields;
        }
      } else if v.Arr? {
        forall i | 0 <= i < |v.items| ensures Clone(v.items[i], k - 1, o) == v.items[i] {
          FixedLeafClones(v.items[i], k - 1, o);
        }
        assert Clone(v, k, o).items == v.items;
      }
    }
  }

  /** A child that cloning replaces would have to be its own parent. */
  lemma ChildNotCut(o: Options, child: Value)
    requires Truthy(o.replacement) && Height(child) < Height(o.replacement) && Clone(child, 0, o) == child
    ensures FixedLeaf(child, o)
  {
    hide Shorten;
  }

  lemma StableIsFlat(o: Options)
    requires Truthy(o.replacement) && Clone(o.replacement, 1, o) == o.replacement
    ensures Flat(o.replacement, o)
  {
    hide Shorten, IndexKey, Clone, Cut;
    var v := o.replacement;
    if v.Obj? && v.fields != [] {
      FieldsHeightIsMax(v.fields, Height(v));
      forall i | 0 <= i < |v.fields| ensures v.fields[i].key !in o.omitKeys && FixedLeaf(v.fields[i].value, o) {
        CloneOneField(v, i, o);
        if v.fields[i].key !in o.omitKeys {
          ChildNotCut(o, v.fields[i].value);
        }
      }
    } else if v.Arr? {
      ItemsHeightIsMax(v.items, Height(v));
      forall i | 0 <= i < |v.items| ensures IndexKey(i) !in o.omitKeys && FixedLeaf(v.items[i], o) {
        CloneOneItem(v, i, o);
        if IndexKey(i) !in o.omitKeys {
          ChildNotCut(o, v.items[i]);
        }
      }
    } else {
      LeafAtDepthOne(v, o);
    }
  }

  lemma LeafAtDepthOne(v: Value, o: Options)
    requires !v.Arr? && (v.Obj? ==> v.fields == []) && Clone(v, 1, o) == v
    ensures FixedLeaf(v, o)
  {
    hide Shorten;
  }

  lemma CloneOneField(v: Value, i: nat, o: Options)
    requires v.Obj? && i < |v.fields| && Clone(v, 1, o) == v && Truthy(o.replacement)
    ensures v.fields[i].value == if v.fields[i].key in o.omitKeys then o.replacement else Clone(v.fields[i].value, 0, o)
  {
    hide Shorten;
    assert Clone(v, 1, o).fields[i] == CloneField(v.fields[i], 1, o);
  }

  lemma CloneOneItem(v: Value, i: nat, o: Options)
    requires v.Arr? && i < |v.items| && Clone(v, 1, o) == v && Truthy(o.replacement)
    ensures v.items[i] == if IndexKey(i) in o.omitKeys then o.replacement else Clone(v.items[i], 0, o)
  {
    hide Shorten, IndexKey;
    assert Clone(v, 1, o).items[i] == v.items[i];
  }

  ghost predicate Composes(o: Options) {
    forall v, m: nat, n: nat :: Clone(Clone(v, m, o), n, o) == Clone(v, Min(m, n), o)
  }

  /** The composition law holds for all values and depths exactly when there is no replacement or it
      is flat.  The law fails at once for any other replacement: cut an object, then clone again. */
  lemma ComposesIff(o: Options)
    ensures Composes(o) <==> (Truthy(o.replacement) ==> Flat(o.replacement, o))
  {
    if Truthy(o.replacement) {
      if Flat(o.replacement, o) {
        forall k: nat ensures Clone(o.replacement, k, o) == o.replacement {
          FlatIsStable(o, k);
        }
      } else if Composes(o) {
        hide Flat;
        var v := Arr([]);
        assert Clone(v, 0, o) == o.replacement;
        assert Clone(Clone(v, 0, o), 1, o) == Clone(v, Min(0, 1), o);
        StableIsFlat(o);
        assert false;
      }
    }
    if Truthy(o.replacement) ==> Flat(o.replacement, o) {
      forall v, m: nat, n: nat ensures Clone(Clone(v, m, o), n, o) == Clone(v, Min(m, n), o) {
        Compose(v, m, n, o);
      }
    }
  }

  // ---------------------------------------------------------------- what a clone depends on

  predicate IsLeaf(v: Value) {
    !v.Obj? && !v.Arr?
  }

  function LeafText(v: Value, o: Options): Value {
    if v.Str? then Str(Shorten(o, v.s)) else v
  }

  /** The two values look the same down to the depth, outside omitted keys, up to shortening. */
  predicate Agree(v: Value, w: Value, depth: int, o: Options) {
    if v.Obj? && w.Obj? then
      if depth == 0 then Truthy(o.replacement) ==> (v.fields == [] <==> w.fields == [])
      else
        && |v.fields| == |w.fields|
        && forall i | 0 <= i < |v.fields| ::
             && v.fields[i].key == w.fields[i].key
             && (v.fields[i].key in o.omitKeys || Agree(v.fields[i].value, w.fields[i].value, depth - 1, o))
    else if v.Arr? && w.Arr? then
      if depth == 0 then true
      else
        && |v.items| == |w.items|
        && forall i | 0 <= i < |v.items| ::
             IndexKey(i) in o.omitKeys || Agree(v.items[i], w.items[i], depth - 1, o)
    else IsLeaf(v) && IsLeaf(w) && LeafText(v, o) == LeafText(w, o)
  }

  /** Nothing below the depth or under an omitted key can be seen in the clone ... */
  lemma {:induction false} AgreeMeansSameClone(v: Value, w: Value, depth: int, o: Options)
    requires Agree(v, w, depth, o)
    ensures Clone(v, depth, o) == Clone(w, depth, o)
    decreases v
  {
    hide Shorten, IndexKey, Truthy;
    if v.Obj? && depth != 0 {
      forall i | 0 <= i < |v.fields| ensures CloneField(v.fields[i], depth, o) == CloneField(w.fields[i], depth, o) {
        if v.fields[i].key !in o.omitKeys {
          AgreeMeansSameClone(v.fields[i].value, w.fields[i].value, depth - 1, o);
        }
      }
      if v.fields != [] {
        assert Clone(v, depth, o).fields == Clone(w, depth, o).fields;
      }
    } else if v.Arr? && depth != 0 {
      forall i | 0 <= i < |v.items| && IndexKey(i) !in o.omitKeys
        ensures Clone(v.items[i], depth - 1, o) == Clone(w.items[i], depth - 1, o)
      {
        AgreeMeansSameClone(v.items[i], w.items[i], depth - 1, o);
      }
      assert Clone(v, depth, o).items == Clone(w, depth, o).items;
    }
  }

  /** ... and, as nothing can be mistaken for a replacement if there is none, everything else can. */
  lemma {:induction false} SameCloneMeansAgree(v: Value, w: Value, depth: int, o: Options)
    requires !Truthy(o.replacement) && Clone(v, depth, o) == Clone(w, depth, o)
    ensures Agree(v, w, depth, o)
    decreases v
  {
    hide Shorten, IndexKey, Truthy;
    if v.Obj? && w.Obj? && depth != 0 {
      var c := Clone(v, depth, o);
      assert v.fields == [] || c.Obj?;
      assert |v.fields| == |c.fields| == |w.fields|;
      forall i | 0 <= i < |v.fields|
        ensures v.fields[i].key == w.fields[i].key
        ensures v.fields[i].key in o.omitKeys || Agree(v.fields[i].value, w.fields[i].value, depth - 1, o)
      {
        assert c.fields[i] == CloneField(v.fields[i], depth, o) == CloneField(w.fields[i], depth, o);
        if v.fields[i].key !in o.omitKeys {
          SameCloneMeansAgree(v.fields[i].value, w.fields[i].value, depth - 1, o);
        }
      }
    } else if v.Arr? && w.Arr? && depth != 0 {
      var c := Clone(v, depth, o);
      assert |v.items| == |c.items| == |w.items|;
      forall i | 0 <= i < |v.items| ensures IndexKey(i) in o.omitKeys || Agree(v.items[i], w.items[i], depth - 1, o) {
        if IndexKey(i) !in o.omitKeys {
          assert c.items[i] == Clone(v.items[i], depth - 1, o) == Clone(w.items[i], depth - 1, o);
          SameCloneMeansAgree(v.items[i], w.items[i], depth - 1, o);
        }
      }
    }
  }

  lemma {:induction false} UnusedReplacement(v: Value, depth: int, o: Options)
    requires !Truthy(o.replacement)
    ensures Clone(v, depth, o) == Clone(v, depth, o.(replacement := Undefined))
    decreases v
  {
    var u := o.(replacement := Undefined);
    hide IndexKey, Truncate;
    if depth != 0 {
      CloneAt(v, depth, o);
      CloneAt(v, depth, u);
    }
    if v.Obj? && v.fields != [] && depth != 0 {
      forall i | 0 <= i < |v.fields| ensures CloneField(v.fields[i], depth, o) == CloneField(v.fields[i], depth, u) {
        UnusedReplacement(v.fields[i].value, depth - 1, o);
      }
      assert Clone(v, depth, o).fields == Clone(v, depth, u).fields;
    } else if v.Arr? && depth != 0 {
      forall i | 0 <= i < |v.items| ensures CloneItem(v.items[i], i, depth, o) == CloneItem(v.items[i], i, depth, u) {
        UnusedReplacement(v.items[i], depth - 1, o);
      }
      assert Clone(v, depth, o).items == Clone(v, depth, u).items;
    }
  }

  /** A truthy replacement shows: it cannot look like both an empty array and an empty object. */
  lemma UsedReplacement(o: Options) returns (v: Value, depth: int)
    requires Truthy(o.replacement)
    ensures Clone(v, depth, o) != Clone(v, depth, o.(replacement := Undefined))
  {
    depth := 0;
    v := if o.replacement == Obj([]) then Arr([]) else Obj([Field("", Null)]);
    assert Clone(v, depth, o) == o.replacement;
  }

  ghost predicate ReplacementIgnored(o: Options) {
    forall v, depth :: Clone(v, depth, o) == Clone(v, depth, o.(replacement := Undefined))
  }

  /** A replacement of `null`, `false`, 0 or "" is never used, as if none were given; any other one is. */
  lemma ReplacementIgnoredIff(o: Options)
    ensures ReplacementIgnored(o) <==> o.replacement in [Undefined, Null, Bool(false), Num(0), Str("")]
  {
    assert Truthy(o.replacement) <==> o.replacement !in [Undefined, Null, Bool(false), Num(0), Str("")];
    hide Clone, Truthy;
    if Truthy(o.replacement) {
      var v, depth := UsedReplacement(o);
    } else {
      forall v, depth ensures Clone(v, depth, o) == Clone(v, depth, o.(replacement := Undefined)) {
        UnusedReplacement(v, depth, o);
      }
    }
  }

  // ---------------------------------------------------------------- how big a clone is

  function ReplacementHeight(o: Options): nat {
    if Truthy(o.replacement) then Height(o.replacement) else 0
  }

  /** A clone nests no deeper than the depth, except inside a replacement. */
  lemma {:induction false} CloneHeight(v: Value, depth: nat, o: Options)
    ensures Height(Clone(v, depth, o)) <= depth + ReplacementHeight(o)
    decreases v
  {
    hide Shorten, IndexKey, Truthy;
    var bound := depth + ReplacementHeight(o);
    if v.Obj? && v.fields != [] && depth > 0 {
      var c := Clone(v, depth, o);
      forall i | 0 <= i < |c.fields| ensures Height(c.fields[i].value) < bound {
        CloneHeight(v.fields[i].value, depth - 1, o);
        assert c.fields[i] == CloneField(v.fields[i], depth, o);
      }
      FieldsHeightIsMax(c.fields, bound);
    } else if v.Arr? && depth > 0 {
      var c := Clone(v, depth, o);
      forall i | 0 <= i < |c.items| ensures Height(c.items[i]) < bound {
        CloneHeight(v.items[i], depth - 1, o);
        assert c.items[i] == CloneItem(v.items[i], i, depth, o);
      }
      ItemsHeightIsMax(c.items, bound);
    }
  }

  /** Does this string occur in the value? */
  predicate Contains(v: Value, s: string) {
    match v
    case Str(t) => s == t
    case Obj(fields) => exists i | 0 <= i < |fields| :: Contains(fields[i].value, s)
    case Arr(items) => exists i | 0 <= i < |items| :: Contains(items[i], s)
    case _ => false
  }

  /** Every string in a clone is within the limit and the suffix, or comes from the replacement. */
  lemma {:induction false} CloneStrings(v: Value, depth: int, o: Options, s: string)
    requires o.maxStringLength != 0 && Contains(Clone(v, depth, o), s)
    ensures |s| <= Abs(o.maxStringLength) + |SUFFIX| || (Truthy(o.replacement) && Contains(o.replacement, s))
    decreases v
  {
    hide IndexKey, Truthy;
    if v.Obj? && v.fields != [] && depth != 0 {
      var c := Clone(v, depth, o);
      var i :| 0 <= i < |c.fields| && Contains(c.fields[i].value, s);
      assert c.fields[i] == CloneField(v.fields[i], depth, o);
      if v.fields[i].key !in o.omitKeys {
        CloneStrings(v.fields[i].value, depth - 1, o, s);
      }
    } else if v.Arr? && depth != 0 {
      var c := Clone(v, depth, o);
      var i :| 0 <= i < |c.items| && Contains(c.items[i], s);
      if IndexKey(i) !in o.omitKeys {
        CloneStrings(v.items[i], depth - 1, o, s);
      }
    }
  }

  /** No omitted key and no long string anywhere in the value. */
  predicate Untouched(v: Value, o: Options) {
    match v
    case Str(s) => Shorten(o, s) == s
    case Obj(fields) => forall i | 0 <= i < |fields| :: fields[i].key !in o.omitKeys && Untouched(fields[i].value, o)
    case Arr(items) => forall i | 0 <= i < |items| :: IndexKey(i) !in o.omitKeys && Untouched(items[i], o)
    case _ => true
  }

  /** With room to spare, or with a negative depth, which never reaches 0, the clone is the value. */
  lemma {:induction false} CloneIsIdentity(v: Value, depth: int, o: Options)
    requires Untouched(v, o) && (depth < 0 || depth > Height(v))
    ensures Clone(v, depth, o) == v
    decreases v
  {
    hide Shorten, IndexKey, Truthy;
    if v.Obj? && v.fields != [] {
      FieldsHeightIsMax(v.fields, Height(v));
      forall i | 0 <= i < |v.fields| ensures CloneField(v.fields[i], depth, o) == v.fields[i] {
        CloneIsIdentity(v.fields[i].value, depth - 1, o);
      }
      assert Clone(v, depth, o).fields == v.fields;
    } else if v.Arr? {
      ItemsHeightIsMax(v.items, Height(v));
      forall i | 0 <= i < |v.items| ensures Clone(v.items[i], depth - 1, o) == v.items[i] {
        CloneIsIdentity(v.items[i], depth - 1, o);
      }
      assert Clone(v, depth, o).items == v.items;
    }
  }
}

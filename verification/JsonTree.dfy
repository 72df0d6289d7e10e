/** Strict JSON trees: the bounded normaliser shared by the frozen-state and the
    execution-snapshot contracts, which gives one form to a whole number however it is held. */
module JsonTree {
  import opened KeyOrder
  import opened Options

  /** A Python value offered as JSON. A digest or a signature is a text that equals no other text;
      Other is a value of a type JSON has no place for, or an object with a key that is no text. */
  datatype Json =
    | Null
    | Bool(b: bool)
    | Int(n: int)
    | Flt(x: real)
    | NonFinite
    | Str(s: Key)
    | Sha(of: Json)
    | Mac(block: KeyBlock, signed: Json)
    | Arr(items: seq<Json>)
    | Obj(fields: map<Key, Json>)
    | Other

  /** The block of bytes an HMAC key is turned into (section 2 of RFC 2104): padded with zeros, or the
      digest of a key longer than the block. */
  datatype KeyBlock = Padded(bytes: Key) | Hashed(key: Key)

  /** The bounds of one contract; `countKeys` says whether key texts use up the text budget. */
  datatype Limits = Limits(maxNodes: nat, maxText: nat, maxDepth: nat, maxString: nat, maxKey: nat,
                           countKeys: bool, maxItems: Option<nat>)

  const SAFE_INTEGER_MAX: int := 0x1F_FFFF_FFFF_FFFF
  const DIGEST_BYTES: nat := 71
  const SIGNATURE_BYTES: nat := 76

  // ---- texts ----

  function Utf8(c: int): nat {
    if c < 0x80 then 1 else if c < 0x800 then 2 else if c < 0x10000 then 3 else 4
  }

  function Bytes(s: Key): nat {
    if s == [] then 0 else Bytes(s[..|s| - 1]) + Utf8(s[|s| - 1])
  }

  predicate Encodable(s: Key) {
    forall i :: 0 <= i < |s| ==> !(0xD800 <= s[i] <= 0xDFFF)
  }

  predicate IsText(v: Json) {
    v.Str? || v.Sha? || v.Mac?
  }

  function TextBytes(v: Json): nat {
    if v.Str? then Bytes(v.s) else if v.Sha? then DIGEST_BYTES else SIGNATURE_BYTES
  }

  predicate TextOk(lim: Limits, v: Json) {
    (v.Str? ==> Encodable(v.s)) && TextBytes(v) <= lim.maxString
  }

  predicate Safe(n: int) {
    -SAFE_INTEGER_MAX <= n <= SAFE_INTEGER_MAX
  }

  predicate Whole(x: real) {
    x == x.Floor as real
  }

  // ---- what is accepted, and the form it gets ----

  predicate Few(lim: Limits, count: nat) {
    lim.maxItems.None? || count <= lim.maxItems.value
  }

  predicate KeyOk(lim: Limits, k: Key) {
    Encodable(k) && Bytes(k) <= lim.maxKey
  }

  /** Every node is of an accepted kind, in range and not too deep. */
  predicate Ok(lim: Limits, v: Json, depth: nat)
    decreases v
  {
    && depth <= lim.maxDepth
    && match v
       case Null => true
       case Bool(_) => true
       case Int(n) => Safe(n)
       case Flt(x) => Whole(x) ==> Safe(x.Floor)
       case NonFinite => false
       case Str(_) => TextOk(lim, v)
       case Sha(_) => TextOk(lim, v)
       case Mac(_, _) => TextOk(lim, v)
       case Arr(items) => Few(lim, |items|) && forall i :: 0 <= i < |items| ==> Ok(lim, items[i], depth + 1)
       case Obj(fields) => Few(lim, |fields|) && forall k :: k in fields ==>
           KeyOk(lim, k) && Ok(lim, fields[k], depth + 1)
       case Other => false
  }

  function Normal(v: Json): (r: Json)
    decreases v
  {
    match v
    case Flt(x) => if Whole(x) then Int(x.Floor) else v
    case Arr(items) => Arr(seq(|items|, i requires 0 <= i < |items| => Normal(items[i])))
    case Obj(fields) => Obj(map k | k in fields :: Normal(fields[k]))
    case _ => v
  }

  /** Nodes and text bytes used. */
  datatype Cost = Cost(nodes: nat, text: nat)

  function Plus(a: Cost, b: Cost): Cost {
    Cost(a.nodes + b.nodes, a.text + b.text)
  }

  function Size(lim: Limits, v: Json): (c: Cost)
    ensures c.nodes >= 1
    decreases v, 1, 0
  {
    match v
    case Str(_) => Cost(1, TextBytes(v))
    case Sha(_) => Cost(1, TextBytes(v))
    case Mac(_, _) => Cost(1, TextBytes(v))
    case Arr(items) => Plus(Cost(1, 0), ItemsSize(lim, v, |items|))
    case Obj(fields) => Plus(Cost(1, 0), FieldsSize(lim, v, SortedKeys(fields.Keys)))
    case _ => Cost(1, 0)
  }

  function ItemsSize(lim: Limits, v: Json, n: nat): Cost
    requires v.Arr? && n <= |v.items|
    decreases v, 0, n
  {
    if n == 0 then Cost(0, 0) else Plus(ItemsSize(lim, v, n - 1), Size(lim, v.items[n - 1]))
  }

  function KeyCost(lim: Limits, k: Key): Cost {
    Cost(0, if lim.countKeys then Bytes(k) else 0)
  }

  function FieldsSize(lim: Limits, v: Json, ks: seq<Key>): Cost
    requires v.Obj? && forall i :: 0 <= i < |ks| ==> ks[i] in v.fields
    decreases v, 0, |ks|
  {
    if ks == [] then Cost(0, 0)
    else
      var k := ks[|ks| - 1];
      Plus(FieldsSize(lim, v, ks[..|ks| - 1]), Plus(KeyCost(lim, k), Size(lim, v.fields[k])))
  }

  predicate Fits(lim: Limits, c: Cost) {
    c.nodes <= lim.maxNodes && c.text <= lim.maxText
  }

  /** Accepted by the normaliser. */
  predicate Accepted(lim: Limits, v: Json) {
    Ok(lim, v, 0) && Fits(lim, Size(lim, v))
  }

  function Normalized(lim: Limits, v: Json): Option<Json> {
    if Accepted(lim, v) then Some(Normal(v)) else None
  }

  // ---- acceptance, node by node ----

  /** One step down a tree. */
  datatype Seg = At(i: nat) | Of(k: Key)

  /** The value under a path. */
  function Under(v: Json, path: seq<Seg>): Option<Json>
    decreases |path|
  {
    if path == [] then Some(v)
    else
      match path[0]
      case At(i) => if v.Arr? && i < |v.items| then Under(v.items[i], path[1..]) else None
      case Of(k) => if v.Obj? && k in v.fields then Under(v.fields[k], path[1..]) else None
  }

  /** A text can be encoded unless it holds half of a surrogate pair. */
  predicate Clear(s: Key) {
    forall c :: c in s ==> c < 0xD800 || 0xDFFF < c
  }

  /** What is asked of one node and its keys at its depth. */
  predicate Sound(lim: Limits, x: Json, depth: nat) {
    && depth <= lim.maxDepth
    && x != NonFinite && x != Other
    && (x.Int? ==> -0x1F_FFFF_FFFF_FFFF <= x.n <= 0x1F_FFFF_FFFF_FFFF)
    && (x.Flt? && x.x == x.x.Floor as real ==> -0x1F_FFFF_FFFF_FFFF <= x.x.Floor <= 0x1F_FFFF_FFFF_FFFF)
    && (x.Str? ==> Clear(x.s) && Bytes(x.s) <= lim.maxString)
    && (x.Sha? ==> 71 <= lim.maxString) && (x.Mac? ==> 76 <= lim.maxString)
    && (x.Arr? && lim.maxItems.Some? ==> |x.items| <= lim.maxItems.value)
    && (x.Obj? && lim.maxItems.Some? ==> |x.fields| <= lim.maxItems.value)
    && (x.Obj? ==> forall k :: k in x.fields ==> Clear(k) && Bytes(k) <= lim.maxKey)
  }

  ghost predicate AllSound(lim: Limits, v: Json, depth: nat) {
    forall path :: Under(v, path).Some? ==> Sound(lim, Under(v, path).value, depth + |path|)
  }

  lemma ClearIsEncodable(s: Key)
    ensures Clear(s) <==> Encodable(s)
  {
    if Clear(s) { forall i | 0 <= i < |s| ensures !(0xD800 <= s[i] <= 0xDFFF) { assert s[i] in s; } }
  }

  lemma SoundHere(lim: Limits, v: Json, depth: nat)
    ensures AllSound(lim, v, depth) ==> Sound(lim, v, depth)
  {
    hide Sound;
    if AllSound(lim, v, depth) { assert Under(v, []) == Some(v); }
  }

  lemma SoundBelow(lim: Limits, v: Json, seg: Seg, depth: nat)
    requires Under(v, [seg]).Some?
    ensures AllSound(lim, v, depth) ==> AllSound(lim, Under(v, [seg]).value, depth + 1)
  {
    hide Sound;
    var x := Under(v, [seg]).value;
    assert [seg][1..] == [];
    if AllSound(lim, v, depth) {
      forall path | Under(x, path).Some? ensures Sound(lim, Under(x, path).value, depth + 1 + |path|) {
        var longer := [seg] + path;
        assert longer[0] == seg && longer[1..] == path && |longer| == 1 + |path|;
        assert Under(v, longer) == Under(x, path);
        assert Sound(lim, Under(v, longer).value, depth + |longer|);
      }
    }
  }

  /** A tree is good exactly when every node of it is, at its depth. */
  lemma {:induction false} OkExact(lim: Limits, v: Json, depth: nat)
    ensures Ok(lim, v, depth) <==> AllSound(lim, v, depth)
    decreases v
  {
    hide Sound, AllSound, Encodable, Clear, Bytes;
    SoundHere(lim, v, depth);
    match v
    case Arr(items) =>
      forall i | 0 <= i < |items|
        ensures Ok(lim, items[i], depth + 1) <==> AllSound(lim, items[i], depth + 1)
        ensures AllSound(lim, v, depth) ==> AllSound(lim, items[i], depth + 1)
      {
        OkExact(lim, items[i], depth + 1);
        assert Under(v, [At(i)]) == Under(items[i], [At(i)][1..]) && [At(i)][1..] == [];
        SoundBelow(lim, v, At(i), depth);
      }
      SoundNode(lim, v, depth);
      if Sound(lim, v, depth) && forall i :: 0 <= i < |items| ==> AllSound(lim, items[i], depth + 1) {
        SoundList(lim, v, depth);
      }
    case Obj(fields) =>
      forall k | k in fields
        ensures Ok(lim, fields[k], depth + 1) <==> AllSound(lim, fields[k], depth + 1)
        ensures AllSound(lim, v, depth) ==> AllSound(lim, fields[k], depth + 1)
      {
        OkExact(lim, fields[k], depth + 1);
        assert Under(v, [Of(k)]) == Under(fields[k], [Of(k)][1..]) && [Of(k)][1..] == [];
        SoundBelow(lim, v, Of(k), depth);
      }
      SoundNode(lim, v, depth);
      if Sound(lim, v, depth) && forall k :: k in fields ==> AllSound(lim, fields[k], depth + 1) {
        SoundObject(lim, v, depth);
      }
    case _ =>
      SoundNode(lim, v, depth);
      if Sound(lim, v, depth) { SoundLeaf(lim, v, depth); }
  }

  /** The node's own part of the acceptance. */
  lemma SoundNode(lim: Limits, v: Json, depth: nat)
    ensures !v.Arr? && !v.Obj? ==> (Ok(lim, v, depth) <==> Sound(lim, v, depth))
    ensures v.Arr? ==> (Sound(lim, v, depth) <==> depth <= lim.maxDepth && Few(lim, |v.items|))
    ensures v.Obj? ==> (Sound(lim, v, depth) <==>
                        depth <= lim.maxDepth && Few(lim, |v.fields|) && forall k :: k in v.fields ==> KeyOk(lim, k))
  {
    hide Bytes, Encodable, Clear;
    if v.Str? { ClearIsEncodable(v.s); }
    if v.Obj? { forall k | k in v.fields ensures Clear(k) <==> Encodable(k) { ClearIsEncodable(k); } }
  }

  lemma SoundLeaf(lim: Limits, v: Json, depth: nat)
    requires !v.Arr? && !v.Obj? && Sound(lim, v, depth)
    ensures AllSound(lim, v, depth)
  {
    hide Sound;
    forall path | Under(v, path).Some? ensures path == [] { }
  }

  lemma SoundList(lim: Limits, v: Json, depth: nat)
    requires v.Arr? && Sound(lim, v, depth)
    requires forall i :: 0 <= i < |v.items| ==> AllSound(lim, v.items[i], depth + 1)
    ensures AllSound(lim, v, depth)
  {
    hide Sound;
    forall path: seq<Seg> | Under(v, path).Some? ensures Sound(lim, Under(v, path).value, depth + |path|) {
      if path != [] {
        var x := v.items[path[0].i];
        assert Under(v, path) == Under(x, path[1..]);
        assert Sound(lim, Under(x, path[1..]).value, depth + 1 + |path[1..]|);
      }
    }
  }

  lemma SoundObject(lim: Limits, v: Json, depth: nat)
    requires v.Obj? && Sound(lim, v, depth)
    requires forall k :: k in v.fields ==> AllSound(lim, v.fields[k], depth + 1)
    ensures AllSound(lim, v, depth)
  {
    hide Sound;
    forall path: seq<Seg> | Under(v, path).Some? ensures Sound(lim, Under(v, path).value, depth + |path|) {
      if path != [] {
        var x := v.fields[path[0].k];
        assert Under(v, path) == Under(x, path[1..]);
        assert Sound(lim, Under(x, path[1..]).value, depth + 1 + |path[1..]|);
      }
    }
  }

  // ---- the size of a tree, laid out flat ----

  /** All nodes of a tree, each before what is below it. */
  function Nodes(v: Json): seq<Json>
    decreases v, 1, 0
  {
    match v
    case Arr(items) => [v] + NodesOfItems(v, |items|)
    case Obj(fields) => [v] + NodesOfFields(v, SortedKeys(fields.Keys))
    case _ => [v]
  }

  function NodesOfItems(v: Json, n: nat): seq<Json>
    requires v.Arr? && n <= |v.items|
    decreases v, 0, n
  {
    if n == 0 then [] else NodesOfItems(v, n - 1) + Nodes(v.items[n - 1])
  }

  function NodesOfFields(v: Json, ks: seq<Key>): seq<Json>
    requires v.Obj? && forall i :: 0 <= i < |ks| ==> ks[i] in v.fields
    decreases v, 0, |ks|
  {
    if ks == [] then [] else NodesOfFields(v, ks[..|ks| - 1]) + Nodes(v.fields[ks[|ks| - 1]])
  }

  /** The text a node itself takes up: its own, or its keys where they count. */
  function TextOf(lim: Limits, x: Json): nat {
    match x
    case Str(s) => Bytes(s)
    case Sha(_) => 71
    case Mac(_, _) => 76
    case Obj(fields) => if lim.countKeys then KeyBytes(SortedKeys(fields.Keys)) else 0
    case _ => 0
  }

  function KeyBytes(ks: seq<Key>): nat {
    if ks == [] then 0 else KeyBytes(ks[..|ks| - 1]) + Bytes(ks[|ks| - 1])
  }

  function TextSum(lim: Limits, nodes: seq<Json>): nat {
    if nodes == [] then 0 else TextSum(lim, nodes[..|nodes| - 1]) + TextOf(lim, nodes[|nodes| - 1])
  }

  lemma {:induction false} TextSumAppend(lim: Limits, a: seq<Json>, b: seq<Json>)
    ensures TextSum(lim, a + b) == TextSum(lim, a) + TextSum(lim, b)
    decreases |b|
  {
    hide TextOf;
    if b == [] {
      assert a + b == a;
    } else {
      assert (a + b)[..|a + b| - 1] == a + b[..|b| - 1];
      TextSumAppend(lim, a, b[..|b| - 1]);
    }
  }

  /** The budget of a tree is the number of its nodes and the sum of their texts. */
  lemma {:induction false} SizeExact(lim: Limits, v: Json)
    ensures Size(lim, v) == Cost(|Nodes(v)|, TextSum(lim, Nodes(v)))
    decreases v, 1, 0
  {
    hide TextSum, SortedKeys, Bytes, Less, Ascending, Size, Nodes, ItemsSize, FieldsSize, NodesOfItems, NodesOfFields,
      KeyBytes;
    TextOfOne(lim, v);
    SizeParts(lim, v);
    NodesParts(v);
    if v.Arr? {
      ItemsSizeExact(lim, v, |v.items|);
      TextSumAppend(lim, [v], NodesOfItems(v, |v.items|));
    } else if v.Obj? {
      var ks := SortedKeys(v.fields.Keys);
      FieldsSizeExact(lim, v, ks);
      TextSumAppend(lim, [v], NodesOfFields(v, ks));
    }
  }

  lemma SizeParts(lim: Limits, v: Json)
    ensures v.Arr? ==> Size(lim, v) == Plus(Cost(1, 0), ItemsSize(lim, v, |v.items|))
    ensures v.Obj? ==> Size(lim, v) == Plus(Cost(1, 0), FieldsSize(lim, v, SortedKeys(v.fields.Keys)))
    ensures !v.Arr? && !v.Obj? ==> Size(lim, v) == Cost(1, TextOf(lim, v))
  {
    hide SortedKeys, Bytes, KeyBytes, ItemsSize, FieldsSize;
  }

  lemma NodesParts(v: Json)
    ensures v.Arr? ==> Nodes(v) == [v] + NodesOfItems(v, |v.items|)
    ensures v.Obj? ==> Nodes(v) == [v] + NodesOfFields(v, SortedKeys(v.fields.Keys))
    ensures !v.Arr? && !v.Obj? ==> Nodes(v) == [v]
  {
    hide SortedKeys, NodesOfItems, NodesOfFields;
  }

  lemma TextOfOne(lim: Limits, v: Json)
    ensures TextSum(lim, [v]) == TextOf(lim, v) && TextSum(lim, []) == 0
  {
    hide TextOf;
    assert [v][..0] == [];
  }

  lemma {:induction false} ItemsSizeExact(lim: Limits, v: Json, n: nat)
    requires v.Arr? && n <= |v.items|
    ensures ItemsSize(lim, v, n) == Cost(|NodesOfItems(v, n)|, TextSum(lim, NodesOfItems(v, n)))
    decreases v, 0, n
  {
    hide TextSum, Size, Nodes;
    TextOfOne(lim, v);
    if n > 0 {
      ItemsSizeExact(lim, v, n - 1);
      SizeExact(lim, v.items[n - 1]);
      TextSumAppend(lim, NodesOfItems(v, n - 1), Nodes(v.items[n - 1]));
    }
  }

  lemma {:induction false} FieldsSizeExact(lim: Limits, v: Json, ks: seq<Key>)
    requires v.Obj? && forall i :: 0 <= i < |ks| ==> ks[i] in v.fields
    ensures FieldsSize(lim, v, ks) ==
            Cost(|NodesOfFields(v, ks)|, TextSum(lim, NodesOfFields(v, ks)) + if lim.countKeys then KeyBytes(ks) else 0)
    decreases v, 0, |ks|
  {
    hide TextSum, Size, Nodes, Bytes;
    TextOfOne(lim, v);
    if ks != [] {
      var front, k := ks[..|ks| - 1], ks[|ks| - 1];
      FieldsSizeExact(lim, v, front);
      SizeExact(lim, v.fields[k]);
      TextSumAppend(lim, NodesOfFields(v, front), Nodes(v.fields[k]));
    }
  }

  /** Accepted is every tree with not too many nodes and not too much text, all of whose nodes are
      good. */
  lemma AcceptedExact(lim: Limits, v: Json)
    ensures Accepted(lim, v) <==>
            |Nodes(v)| <= lim.maxNodes && TextSum(lim, Nodes(v)) <= lim.maxText && AllSound(lim, v, 0)
    ensures Normalized(lim, v) == if Accepted(lim, v) then Some(Normal(v)) else None
  {
    hide Ok, AllSound, Size, Nodes, TextSum;
    OkExact(lim, v, 0);
    SizeExact(lim, v);
  }

  /** The bytes of a character in UTF-8 (section 3 of RFC 3629): 7, 11 and 16 bits fit in one, two and
      three. */
  lemma Utf8Exact(c: int)
    ensures 1 <= Utf8(c) <= 4
    ensures Utf8(c) <= 1 <==> c <= 127
    ensures Utf8(c) <= 2 <==> c <= 2047
    ensures Utf8(c) <= 3 <==> c <= 65535
  {
  }

  lemma {:induction false} BytesExact(a: Key, b: Key)
    ensures Bytes(a + b) == Bytes(a) + Bytes(b)
    ensures |a| == 1 ==> Bytes(a) == Utf8(a[0])
    decreases |b|
  {
    if |a| == 1 { assert a[..0] == []; }
    if b == [] {
      assert a + b == a;
    } else {
      assert (a + b)[..|a + b| - 1] == a + b[..|b| - 1];
      BytesExact(a, b[..|b| - 1]);
    }
  }

  // ---- normal forms ----

  /** The normal form under every path: a whole float is the integer, everything else stands. */
  lemma {:induction false} NormalExact(v: Json, path: seq<Seg>)
    ensures Under(Normal(v), path).Some? <==> Under(v, path).Some?
    ensures Under(v, path).Some? ==>
              var x, y := Under(v, path).value, Under(Normal(v), path).value;
              && (x.Flt? && x.x == x.x.Floor as real ==> y == Int(x.x.Floor))
              && (x.Arr? ==> y.Arr? && |y.items| == |x.items|)
              && (x.Obj? ==> y.Obj? && y.fields.Keys == x.fields.Keys)
              && (!x.Arr? && !x.Obj? && !(x.Flt? && x.x == x.x.Floor as real) ==> y == x)
    decreases |path|
  {
    hide Normal;
    NormalKind(v);
    if path != [] {
      match path[0]
      case At(i) => if v.Arr? && i < |v.items| { NormalExact(v.items[i], path[1..]); }
      case Of(k) => if v.Obj? && k in v.fields { NormalExact(v.fields[k], path[1..]); }
    }
  }

  /** Normalising again changes nothing. */
  lemma {:induction false} NormalTwice(v: Json)
    ensures Normal(Normal(v)) == Normal(v)
    decreases v
  {
    match v
    case Flt(x) =>
    case Arr(items) =>
      var once := Normal(v).items;
      forall i | 0 <= i < |items| ensures Normal(once[i]) == once[i] { NormalTwice(items[i]); }
      assert Normal(Arr(once)).items == once;
    case Obj(fields) =>
      var once := Normal(v).fields;
      forall k | k in fields ensures Normal(once[k]) == once[k] { NormalTwice(fields[k]); }
      assert Normal(Obj(once)).fields == once;
    case _ =>
  }

  /** The same tree with some whole numbers held as floats on one side and integers on the other. */
  predicate Alias(a: Json, b: Json)
    decreases a
  {
    match a
    case Int(n) => b == a || (b.Flt? && b.x == n as real)
    case Flt(x) => b == a || (b.Int? && b.n as real == x)
    case Arr(items) => b.Arr? && |b.items| == |items| && forall i :: 0 <= i < |items| ==> Alias(items[i], b.items[i])
    case Obj(fields) => b.Obj? && b.fields.Keys == fields.Keys && forall k :: k in fields ==>
        Alias(fields[k], b.fields[k])
    case _ => a == b
  }

  lemma NormalKind(v: Json)
    ensures Normal(v).Arr? == v.Arr? && Normal(v).Obj? == v.Obj?
    ensures v.Arr? ==> |Normal(v).items| == |v.items| && forall i :: 0 <= i < |v.items| ==>
              Normal(v).items[i] == Normal(v.items[i])
    ensures v.Obj? ==> Normal(v).fields.Keys == v.fields.Keys && forall k :: k in v.fields ==>
              Normal(v).fields[k] == Normal(v.fields[k])
    ensures !v.Arr? && !v.Obj? && !v.Flt? ==> Normal(v) == v
    ensures v.Flt? ==> Normal(v) == if Whole(v.x) then Int(v.x.Floor) else v
  {
  }

  /** Two values get one normal form exactly when they differ only in how whole numbers are held. */
  lemma {:induction false} NormalIffAlias(a: Json, b: Json)
    ensures Normal(a) == Normal(b) <==> Alias(a, b)
    decreases a
  {
    hide Normal;
    NormalKind(a);
    NormalKind(b);
    if a.Arr? && b.Arr? && |a.items| == |b.items| {
      forall i | 0 <= i < |a.items|
        ensures Normal(a.items[i]) == Normal(b.items[i]) <==> Alias(a.items[i], b.items[i])
      {
        NormalIffAlias(a.items[i], b.items[i]);
      }
      SameItems(Normal(a), Normal(b));
    } else if a.Obj? && b.Obj? && a.fields.Keys == b.fields.Keys {
      forall k | k in a.fields ensures Normal(a.fields[k]) == Normal(b.fields[k]) <==> Alias(a.fields[k], b.fields[k]) {
        NormalIffAlias(a.fields[k], b.fields[k]);
      }
      SameFields(Normal(a), Normal(b));
    } else if a.Int? || a.Flt? {
      WholeNumbers(a, b);
    }
  }

  lemma WholeNumbers(a: Json, b: Json)
    requires a.Int? || a.Flt?
    ensures Normal(a) == Normal(b) <==> Alias(a, b)
  {
    if a.Int? && b.Flt? {
      assert b.x == a.n as real ==> b.x.Floor == a.n;
    }
    if a.Flt? && b.Int? {
      assert a.x == b.n as real ==> a.x.Floor == b.n;
    }
  }

  lemma SameItems(a: Json, b: Json)
    requires a.Arr? && b.Arr? && |a.items| == |b.items|
    ensures a == b <==> forall i :: 0 <= i < |a.items| ==> a.items[i] == b.items[i]
  {
  }

  lemma SameFields(a: Json, b: Json)
    requires a.Obj? && b.Obj? && a.fields.Keys == b.fields.Keys
    ensures a == b <==> forall k :: k in a.fields ==> a.fields[k] == b.fields[k]
  {
    if forall k :: k in a.fields ==> a.fields[k] == b.fields[k] {
      assert a.fields == b.fields;
    }
  }

  lemma {:induction false} OkOfNormal(lim: Limits, v: Json, depth: nat)
    ensures Ok(lim, Normal(v), depth) == Ok(lim, v, depth)
    decreases v
  {
    hide Normal, Ok, KeyOk;
    NormalKind(v);
    OkIsShallow(lim, v, depth);
    OkIsShallow(lim, Normal(v), depth);
    if depth <= lim.maxDepth && v.Arr? {
      OkItems(lim, v, depth);
      OkItems(lim, Normal(v), depth);
      forall i | 0 <= i < |v.items| ensures Ok(lim, Normal(v.items[i]), depth + 1) == Ok(lim, v.items[i], depth + 1) {
        OkOfNormal(lim, v.items[i], depth + 1);
      }
    } else if depth <= lim.maxDepth && v.Obj? {
      OkFields(lim, v, depth);
      OkFields(lim, Normal(v), depth);
      SameCount(v.fields, Normal(v).fields);
      forall k | k in v.fields ensures Ok(lim, Normal(v.fields[k]), depth + 1) == Ok(lim, v.fields[k], depth + 1) {
        OkOfNormal(lim, v.fields[k], depth + 1);
      }
    } else if v.Flt? {
      ScalarMeans(lim, v, depth);
      ScalarMeans(lim, Normal(v), depth);
    }
  }

  lemma SameCount(a: map<Key, Json>, b: map<Key, Json>)
    requires a.Keys == b.Keys
    ensures |a| == |b|
  {
    assert |a| == |a.Keys| && |b| == |b.Keys|;
  }

  lemma {:induction false} SizeOfNormal(lim: Limits, v: Json)
    ensures Size(lim, Normal(v)) == Size(lim, v)
    decreases v, 1, 0
  {
    hide Normal, Size, ItemsSize, FieldsSize, SortedKeys, TextBytes;
    NormalKind(v);
    SizeOfTree(lim, v);
    SizeOfTree(lim, Normal(v));
    if v.Arr? {
      ItemsSizeOfNormal(lim, v, |v.items|);
    } else if v.Obj? {
      FieldsSizeOfNormal(lim, v, SortedKeys(v.fields.Keys));
    } else {
      SizeOfLeaf(lim, v);
      SizeOfLeaf(lim, Normal(v));
    }
  }

  lemma {:induction false} ItemsSizeOfNormal(lim: Limits, v: Json, n: nat)
    requires v.Arr? && n <= |v.items|
    ensures Normal(v).Arr? && |Normal(v).items| == |v.items| && ItemsSize(lim, Normal(v), n) == ItemsSize(lim, v, n)
    decreases v, 0, n
  {
    NormalKind(v);
    if n > 0 {
      ItemsSizeOfNormal(lim, v, n - 1);
      SizeOfNormal(lim, v.items[n - 1]);
    }
  }

  lemma {:induction false} FieldsSizeOfNormal(lim: Limits, v: Json, ks: seq<Key>)
    requires v.Obj? && forall i :: 0 <= i < |ks| ==> ks[i] in v.fields
    ensures Normal(v).Obj? && Normal(v).fields.Keys == v.fields.Keys
            && FieldsSize(lim, Normal(v), ks) == FieldsSize(lim, v, ks)
    decreases v, 0, |ks|
  {
    NormalKind(v);
    if ks != [] {
      FieldsSizeOfNormal(lim, v, ks[..|ks| - 1]);
      SizeOfNormal(lim, v.fields[ks[|ks| - 1]]);
    }
  }

  /** A normal form is accepted again, as itself. */
  lemma NormalizedTwice(lim: Limits, v: Json)
    ensures Accepted(lim, Normal(v)) == Accepted(lim, v)
    ensures Normalized(lim, v).Some? ==> Normalized(lim, Normalized(lim, v).value) == Normalized(lim, v)
  {
    hide Normal, Ok, Size;
    OkOfNormal(lim, v, 0);
    SizeOfNormal(lim, v);
    NormalTwice(v);
  }

  /** However whole numbers are held, the verdict and the normal form are the same. */
  lemma NormalizedOfAlias(lim: Limits, a: Json, b: Json)
    requires Alias(a, b)
    ensures Normalized(lim, a) == Normalized(lim, b)
  {
    hide Normal, Ok, Size, Alias;
    NormalIffAlias(a, b);
    NormalizedTwice(lim, a);
    NormalizedTwice(lim, b);
  }

  // ---- the normaliser with its shared budget ----

  class Budget {
    var nodes: nat
    var text: nat

    constructor ()
      ensures nodes == 0 && text == 0
    {
      nodes, text := 0, 0;
    }

    ghost function Used(): Cost
      reads this
    {
      Cost(nodes, text)
    }
  }

  lemma {:induction false} ItemsSizeGrows(lim: Limits, v: Json, i: nat, n: nat)
    requires v.Arr? && i <= n <= |v.items|
    ensures ItemsSize(lim, v, i).nodes <= ItemsSize(lim, v, n).nodes
    ensures ItemsSize(lim, v, i).text <= ItemsSize(lim, v, n).text
    decreases n
  {
    hide Size;
    if i < n { ItemsSizeGrows(lim, v, i, n - 1); }
  }

  lemma {:induction false} FieldsSizeGrows(lim: Limits, v: Json, ks: seq<Key>, i: nat)
    requires v.Obj? && i <= |ks| && forall j :: 0 <= j < |ks| ==> ks[j] in v.fields
    ensures FieldsSize(lim, v, ks[..i]).nodes <= FieldsSize(lim, v, ks).nodes
    ensures FieldsSize(lim, v, ks[..i]).text <= FieldsSize(lim, v, ks).text
    decreases |ks|
  {
    hide Size;
    if i < |ks| {
      FieldsSizeGrows(lim, v, ks[..|ks| - 1], i);
      assert ks[..|ks| - 1][..i] == ks[..i];
    } else {
      assert ks[..i] == ks;
    }
  }

  /** The budget is shared by the whole recursion: what is accepted is a bound on the whole tree,
      and what has been used when it is accepted is exactly the tree's size. */
  method Normalize(lim: Limits, v: Json, depth: nat, budget: Budget) returns (r: Option<Json>)
    requires budget.text <= lim.maxText
    modifies budget
    ensures r.Some? <==> Ok(lim, v, depth) && Fits(lim, Plus(old(budget.Used()), Size(lim, v)))
    ensures r.Some? ==> r.value == Normal(v) && budget.Used() == Plus(old(budget.Used()), Size(lim, v))
    decreases v, 1
  {
    hide Normal, Ok, Size, ItemsSize, FieldsSize, SortedKeys, TextOk, TextBytes;
    OkIsShallow(lim, v, depth);
    SizeOfTree(lim, v);
    budget.nodes := budget.nodes + 1;
    if budget.nodes > lim.maxNodes || depth > lim.maxDepth { return None; }
    if v.Arr? {
      r := NormalizeItems(lim, v, depth, budget);
    } else if v.Obj? {
      r := NormalizeFields(lim, v, depth, budget);
    } else if IsText(v) {
      TextMeans(lim, v, depth);
      SizeOfLeaf(lim, v);
      if !TextOk(lim, v) { return None; }
      budget.text := budget.text + TextBytes(v);
      r := if budget.text > lim.maxText then None else Some(v);
    } else {
      ScalarMeans(lim, v, depth);
      SizeOfLeaf(lim, v);
      r := Scalar(v);
    }
  }

  /** A number, a truth value or nothing at all. */
  function Scalar(v: Json): Option<Json> {
    match v
    case Int(n) => if Safe(n) then Some(v) else None
    case Flt(x) => if !Whole(x) then Some(v) else if Safe(x.Floor) then Some(Int(x.Floor)) else None
    case Null => Some(v)
    case Bool(_) => Some(v)
    case _ => None
  }

  lemma SizeOfTree(lim: Limits, v: Json)
    ensures v.Arr? ==> Size(lim, v) == Plus(Cost(1, 0), ItemsSize(lim, v, |v.items|))
    ensures v.Obj? ==> Size(lim, v) == Plus(Cost(1, 0), FieldsSize(lim, v, SortedKeys(v.fields.Keys)))
    ensures Size(lim, v).nodes >= 1
  {
    hide SortedKeys, ItemsSize, FieldsSize;
  }

  lemma SizeOfLeaf(lim: Limits, v: Json)
    requires !v.Arr? && !v.Obj?
    ensures Size(lim, v) == Cost(1, if IsText(v) then TextBytes(v) else 0)
  {
    hide SortedKeys, Bytes, TextBytes, ItemsSize, FieldsSize;
  }

  lemma OkIsShallow(lim: Limits, v: Json, depth: nat)
    ensures Ok(lim, v, depth) ==> depth <= lim.maxDepth
  {
    hide TextOk, KeyOk;
  }

  lemma TextMeans(lim: Limits, v: Json, depth: nat)
    requires IsText(v)
    ensures Normal(v) == v && (Ok(lim, v, depth) <==> depth <= lim.maxDepth && TextOk(lim, v))
  {
    hide TextOk;
  }

  lemma ScalarMeans(lim: Limits, v: Json, depth: nat)
    requires !v.Arr? && !v.Obj? && !IsText(v)
    ensures Ok(lim, v, depth) <==> depth <= lim.maxDepth && Scalar(v).Some?
    ensures Scalar(v).Some? ==> Scalar(v).value == Normal(v)
  {
    hide TextOk;
  }

  method NormalizeItems(lim: Limits, v: Json, depth: nat, budget: Budget) returns (r: Option<Json>)
    requires v.Arr? && depth <= lim.maxDepth && budget.nodes <= lim.maxNodes && budget.text <= lim.maxText
    modifies budget
    ensures r.Some? <==> Ok(lim, v, depth) && Fits(lim, Plus(old(budget.Used()), ItemsSize(lim, v, |v.items|)))
    ensures r.Some? ==> r.value == Normal(v) && budget.Used() == Plus(old(budget.Used()), ItemsSize(lim, v, |v.items|))
    decreases v, 0
  {
    hide Normal, Ok, Size, ItemsSize;
    OkItems(lim, v, depth);
    NormalKind(v);
    if !Few(lim, |v.items|) { return None; }
    var items: seq<Json> := [];
    ItemsSizeNext(lim, v);
    for i := 0 to |v.items|
      invariant |items| == i && forall j :: 0 <= j < i ==> items[j] == Normal(v.items[j])
      invariant forall j :: 0 <= j < i ==> Ok(lim, v.items[j], depth + 1)
      invariant budget.Used() == Plus(old(budget.Used()), ItemsSize(lim, v, i))
      invariant Fits(lim, budget.Used())
    {
      ItemsSizeGrows(lim, v, i + 1, |v.items|);
      var item := Normalize(lim, v.items[i], depth + 1, budget);
      if item.None? { return None; }
      items := items + [item.value];
    }
    r := Some(Arr(items));
    SameItems(r.value, Normal(v));
  }

  lemma ItemsSizeNext(lim: Limits, v: Json)
    requires v.Arr?
    ensures ItemsSize(lim, v, 0) == Cost(0, 0)
    ensures forall i :: 0 <= i < |v.items| ==>
              ItemsSize(lim, v, i + 1) == Plus(ItemsSize(lim, v, i), Size(lim, v.items[i]))
  {
    hide Size;
  }

  lemma OkItems(lim: Limits, v: Json, depth: nat)
    requires v.Arr? && depth <= lim.maxDepth
    ensures Ok(lim, v, depth) <==>
            Few(lim, |v.items|) && forall i :: 0 <= i < |v.items| ==> Ok(lim, v.items[i], depth + 1)
  {
  }

  method NormalizeFields(lim: Limits, v: Json, depth: nat, budget: Budget) returns (r: Option<Json>)
    requires v.Obj? && depth <= lim.maxDepth && budget.nodes <= lim.maxNodes && budget.text <= lim.maxText
    modifies budget
    ensures r.Some? <==>
            Ok(lim, v, depth) && Fits(lim, Plus(old(budget.Used()), FieldsSize(lim, v, SortedKeys(v.fields.Keys))))
    ensures r.Some? ==> r.value == Normal(v)
                        && budget.Used() == Plus(old(budget.Used()), FieldsSize(lim, v, SortedKeys(v.fields.Keys)))
    decreases v, 0
  {
    hide Normal, Ok, Size, FieldsSize, SortedKeys, KeyOk, KeyCost, Taken;
    OkFields(lim, v, depth);
    if !Few(lim, |v.fields|) { return None; }
    var ks := SortedKeys(v.fields.Keys);
    var fields: map<Key, Json> := map[];
    FieldsSizeNone(lim, v, ks);
    NoneTaken(lim, v, depth, ks);
    for i := 0 to |ks|
      invariant Taken(lim, v, depth, fields, ks[..i])
      invariant budget.Used() == Plus(old(budget.Used()), FieldsSize(lim, v, ks[..i]))
      invariant Fits(lim, budget.Used())
    {
      var k := ks[i];
      assert k in v.fields;
      FieldsSizeNext(lim, v, ks, i);
      FieldsSizeGrows(lim, v, ks, i + 1);
      var item := NormalizeField(lim, k, v.fields[k], depth + 1, budget);
      if item.None? { return None; }
      OneTaken(lim, v, depth, fields, ks, i);
      fields := fields[k := item.value];
    }
    r := Some(Obj(fields));
    AllTaken(lim, v, depth, fields, ks);
  }

  /** Some of the fields: good ones, each in its normal form. */
  ghost predicate Taken(lim: Limits, v: Json, depth: nat, fields: map<Key, Json>, part: seq<Key>)
    requires v.Obj?
  {
    && (forall k :: k in fields.Keys <==> k in part)
    && forall k :: k in fields ==>
         k in v.fields && fields[k] == Normal(v.fields[k]) && KeyOk(lim, k) && Ok(lim, v.fields[k], depth + 1)
  }

  lemma NoneTaken(lim: Limits, v: Json, depth: nat, ks: seq<Key>)
    requires v.Obj?
    ensures Taken(lim, v, depth, map[], ks[..0])
  {
  }

  lemma OneTaken(lim: Limits, v: Json, depth: nat, fields: map<Key, Json>, ks: seq<Key>, i: nat)
    requires v.Obj? && i < |ks| && ks[i] in v.fields && Taken(lim, v, depth, fields, ks[..i])
    requires KeyOk(lim, ks[i]) && Ok(lim, v.fields[ks[i]], depth + 1)
    ensures Taken(lim, v, depth, fields[ks[i] := Normal(v.fields[ks[i]])], ks[..i + 1])
  {
    hide Normal, Ok, KeyOk;
    assert ks[..i + 1] == ks[..i] + [ks[i]];
  }

  lemma AllTaken(lim: Limits, v: Json, depth: nat, fields: map<Key, Json>, ks: seq<Key>)
    requires v.Obj? && (forall k :: k in ks <==> k in v.fields) && Taken(lim, v, depth, fields, ks[..|ks|])
    ensures Obj(fields) == Normal(v) && ks[..|ks|] == ks
    ensures forall k :: k in v.fields ==> KeyOk(lim, k) && Ok(lim, v.fields[k], depth + 1)
  {
    hide Normal, Ok, KeyOk;
    NormalKind(v);
    assert ks[..|ks|] == ks;
    assert fields.Keys == v.fields.Keys;
    SameFields(Obj(fields), Normal(v));
  }

  method NormalizeField(lim: Limits, k: Key, item: Json, depth: nat, budget: Budget) returns (r: Option<Json>)
    requires budget.text <= lim.maxText
    modifies budget
    ensures r.Some? <==> KeyOk(lim, k) && Ok(lim, item, depth)
                         && Fits(lim, Plus(old(budget.Used()), Plus(KeyCost(lim, k), Size(lim, item))))
    ensures r.Some? ==> r.value == Normal(item)
                        && budget.Used() == Plus(old(budget.Used()), Plus(KeyCost(lim, k), Size(lim, item)))
    decreases item, 2
  {
    hide Normal, Ok, Size;
    if !Encodable(k) || Bytes(k) > lim.maxKey { return None; }
    if lim.countKeys {
      budget.text := budget.text + Bytes(k);
      if budget.text > lim.maxText { return None; }
    }
    r := Normalize(lim, item, depth, budget);
  }

  lemma FieldsSizeNone(lim: Limits, v: Json, ks: seq<Key>)
    requires v.Obj?
    ensures FieldsSize(lim, v, ks[..0]) == Cost(0, 0)
  {
  }

  lemma FieldsSizeNext(lim: Limits, v: Json, ks: seq<Key>, i: nat)
    requires v.Obj? && i < |ks| && forall j :: 0 <= j < |ks| ==> ks[j] in v.fields
    ensures FieldsSize(lim, v, ks[..i + 1]) ==
            Plus(FieldsSize(lim, v, ks[..i]), Plus(KeyCost(lim, ks[i]), Size(lim, v.fields[ks[i]])))
  {
    hide Size;
    assert ks[..i + 1][..i] == ks[..i];
  }

  lemma OkFields(lim: Limits, v: Json, depth: nat)
    requires v.Obj? && depth <= lim.maxDepth
    ensures Ok(lim, v, depth) <==>
            Few(lim, |v.fields|) && forall k :: k in v.fields ==> KeyOk(lim, k) && Ok(lim, v.fields[k], depth + 1)
  {
  }

  /** A value normalised with a budget of its own. */
  method NormalizeWhole(lim: Limits, v: Json) returns (r: Option<Json>)
    ensures r == Normalized(lim, v)
  {
    hide Normal, Ok, Size;
    var budget := new Budget();
    r := Normalize(lim, v, 0, budget);
    assert Plus(Cost(0, 0), Size(lim, v)) == Size(lim, v);
  }
}

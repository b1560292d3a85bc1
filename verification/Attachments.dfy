/**
  Pulling large buffers out of a message and putting them back: each buffer found
  in the tree becomes a marker holding its index in one shared list.
 */
module Attachments {
  import opened Common
  import opened Wire

  /** Message values. A dictionary keeps its keys and values in insertion order;
      an array is its shape, element type and row-major bytes; `Other` is any
      other object, which the text encoder may refuse. */
  datatype Val =
    | Int(n: int)
    | Text(s: string)
    | Bytes(data: seq<byte>)
    | ByteArray(data: seq<byte>)
    | Array(shape: seq<nat>, dtype: string, data: seq<byte>)
    | Dict(keys: seq<Val>, vals: seq<Val>)
    | List(vals: seq<Val>)
    | Tuple(vals: seq<Val>)
    | Other(id: nat)
  {
    predicate Container?() { Dict? || List? || Tuple? }
  }

  const MarkerKey := Text("__defw_attachment__")
  const DataKey := Text("__defw_attachment_data__")

  function IndexOf(keys: seq<Val>, k: Val): (i: nat)
    ensures i <= |keys| && (i < |keys| <==> k in keys) && (i < |keys| ==> keys[i] == k)
  {
    if keys == [] || keys[0] == k then 0 else 1 + IndexOf(keys[1..], k)
  }

  function Lookup(d: Val, k: Val): Option<Val>
    requires d.Dict?
  {
    var i := IndexOf(d.keys, k);
    if i < |d.keys| && i < |d.vals| then Some(d.vals[i]) else None
  }

  // ---------------------------------------------------------------- extraction

  /** Whether a value is carried as an attachment: arrays always, byte strings
      from the threshold on. */
  predicate Pulls(v: Val, thr: int) {
    v.Array? || ((v.Bytes? || v.ByteArray?) && |v.data| >= thr)
  }

  /** The attachments of a value, in the order a left-to-right walk meets them. */
  function Pulled(v: Val, thr: int): seq<seq<byte>>
    decreases v
  {
    if Pulls(v, thr) then [v.data]
    else if v.Container?() then PulledAll(v.vals, thr)
    else []
  }

  function PulledAll(vs: seq<Val>, thr: int): seq<seq<byte>>
    decreases vs
  {
    if vs == [] then [] else PulledAll(vs[..|vs| - 1], thr) + Pulled(vs[|vs| - 1], thr)
  }

  /** ascontiguousarray gives a 0-d array one dimension. */
  function Contiguous(shape: seq<nat>): seq<nat> {
    if shape == [] then [1] else shape
  }

  function Dims(shape: seq<nat>): Val {
    List(seq(|shape|, i requires 0 <= i < |shape| => Int(shape[i])))
  }

  function Marker(v: Val, index: nat): Val {
    if v.Array? then
      Dict([MarkerKey, Text("kind"), Text("shape"), Text("dtype")],
           [Int(index), Text("ndarray"), Dims(Contiguous(v.shape)), Text(v.dtype)])
    else
      Dict([MarkerKey, Text("kind")], [Int(index), Text("bytes")])
  }

  /** The message with markers in place of attachments, numbered from n. */
  function Mark(v: Val, n: nat, thr: int): Val
    decreases v
  {
    if Pulls(v, thr) then Marker(v, n)
    else if v.Container?() then v.(vals := MarkAll(v.vals, n, thr))
    else v
  }

  function MarkAll(vs: seq<Val>, n: nat, thr: int): seq<Val>
    decreases vs
  {
    if vs == [] then []
    else
      var front := vs[..|vs| - 1];
      MarkAll(front, n, thr) + [Mark(vs[|vs| - 1], n + |PulledAll(front, thr)|, thr)]
  }

  lemma MarkPush(vs: seq<Val>, v: Val, n: nat, thr: int)
    ensures PulledAll(vs + [v], thr) == PulledAll(vs, thr) + Pulled(v, thr)
    ensures MarkAll(vs + [v], n, thr) == MarkAll(vs, n, thr) + [Mark(v, n + |PulledAll(vs, thr)|, thr)]
  {
    assert (vs + [v])[..|vs|] == vs;
  }

  lemma MarkNext(vs: seq<Val>, i: nat, n: nat, thr: int)
    requires i < |vs|
    ensures PulledAll(vs[..i + 1], thr) == PulledAll(vs[..i], thr) + Pulled(vs[i], thr)
    ensures MarkAll(vs[..i + 1], n, thr) == MarkAll(vs[..i], n, thr) + [Mark(vs[i], n + |PulledAll(vs[..i], thr)|, thr)]
  {
    assert vs[..i + 1] == vs[..i] + [vs[i]];
    MarkPush(vs[..i], vs[i], n, thr);
  }

  /** The list shared by the whole walk. */
  class Accumulator {
    var items: seq<seq<byte>>
    constructor ()
      ensures items == []
    {
      items := [];
    }
  }

  /** _extract: every recursive call appends to the same list and numbers its
      markers by the list's length at that moment. */
  method Extract(v: Val, acc: Accumulator, thr: int) returns (r: Val)
    modifies acc
    ensures acc.items == old(acc.items) + Pulled(v, thr)
    ensures r == Mark(v, |old(acc.items)|, thr)
    decreases v
  {
    if Pulls(v, thr) {
      var index := |acc.items|;
      acc.items := acc.items + [v.data];
      return Marker(v, index);
    }
    if !v.Container?() { return v; }
    var vals := ExtractAll(v.vals, acc, thr);
    return v.(vals := vals);
  }

  /** The comprehensions over a container's values. */
  method ExtractAll(vs: seq<Val>, acc: Accumulator, thr: int) returns (out: seq<Val>)
    modifies acc
    ensures acc.items == old(acc.items) + PulledAll(vs, thr)
    ensures out == MarkAll(vs, |old(acc.items)|, thr)
    decreases vs
  {
    out := [];
    ghost var start := acc.items;
    for i := 0 to |vs|
      invariant out == MarkAll(vs[..i], |start|, thr)
      invariant acc.items == start + PulledAll(vs[..i], thr)
    {
      var one := Extract(vs[i], acc, thr);
      out := out + [one];
      MarkNext(vs, i, |start|, thr);
      assert start + PulledAll(vs[..i], thr) + Pulled(vs[i], thr) ==
             start + (PulledAll(vs[..i], thr) + Pulled(vs[i], thr));
    }
    assert vs[..|vs|] == vs;
  }

  // ---------------------------------------------------------------- restoring

  function Product(shape: seq<nat>): nat {
    if shape == [] then 1 else Product(shape[..|shape| - 1]) * shape[|shape| - 1]
  }

  function ShapeOf(v: Val): Option<seq<nat>> {
    if v.List? && forall x :: x in v.vals ==> x.Int? && x.n >= 0 then
      Some(seq(|v.vals|, i requires 0 <= i < |v.vals| => v.vals[i].n))
    else None
  }

  /** frombuffer and reshape: the bytes must be whole elements, as many as the
      shape asks for. */
  function Rebuild(buf: seq<byte>, dtype: Option<Val>, shape: Option<Val>, size: string -> nat): Option<Val> {
    if dtype.None? || shape.None? || !dtype.value.Text? then None
    else
      var dims := ShapeOf(shape.value);
      if dims.None? || size(dtype.value.s) == 0 || |buf| != Product(dims.value) * size(dtype.value.s) then None
      else Some(Array(dims.value, dtype.value.s, buf))
  }

  /** Python indexing: a negative index counts from the end. */
  function At(att: seq<seq<byte>>, index: Option<Val>): Option<seq<byte>> {
    if index.None? || !index.value.Int? then None
    else
      var i := if index.value.n < 0 then index.value.n + |att| else index.value.n;
      if 0 <= i < |att| then Some(att[i]) else None
  }

  /** _reinject; None stands for an exception. */
  function Reinject(v: Val, att: seq<seq<byte>>, size: string -> nat): Option<Val>
    decreases v
  {
    if v.Dict? && MarkerKey in v.keys then
      match At(att, Lookup(v, MarkerKey))
      case None => None
      case Some(buf) =>
        if Lookup(v, Text("kind")) == Some(Text("ndarray")) then
          Rebuild(buf, Lookup(v, Text("dtype")), Lookup(v, Text("shape")), size)
        else Some(Bytes(buf))
    else if v.Container?() then
      match ReinjectAll(v.vals, att, size)
      case None => None
      case Some(vals) => Some(v.(vals := vals))
    else Some(v)
  }

  function ReinjectAll(vs: seq<Val>, att: seq<seq<byte>>, size: string -> nat): Option<seq<Val>>
    decreases vs
  {
    if vs == [] then Some([])
    else match (ReinjectAll(vs[..|vs| - 1], att, size), Reinject(vs[|vs| - 1], att, size))
      case (Some(front), Some(last)) => Some(front + [last])
      case _ => None
  }

  // ---------------------------------------------------------------- the round trip

  /** Messages an application may send: no dictionary uses the marker key, and
      every array has as many bytes as its shape and element type say. */
  predicate Plain(v: Val, size: string -> nat)
    decreases v
  {
    && (v.Dict? ==> |v.keys| == |v.vals| && MarkerKey !in v.keys)
    && (v.Array? ==> size(v.dtype) > 0 && |v.data| == Product(v.shape) * size(v.dtype))
    && (v.Container?() ==> forall i :: 0 <= i < |v.vals| ==> Plain(v.vals[i], size))
  }

  /** What comes back: extracted byte arrays are bytes, 0-d arrays are 1-d. */
  function Norm(v: Val, thr: int): Val
    decreases v
  {
    if v.Array? then v.(shape := if v.shape == [] then [1] else v.shape)
    else if v.ByteArray? && |v.data| >= thr then Bytes(v.data)
    else if v.Container?() then v.(vals := NormAll(v.vals, thr))
    else v
  }

  function NormAll(vs: seq<Val>, thr: int): seq<Val>
    decreases vs
  {
    if vs == [] then [] else NormAll(vs[..|vs| - 1], thr) + [Norm(vs[|vs| - 1], thr)]
  }

  lemma DimsRoundTrip(shape: seq<nat>)
    ensures ShapeOf(Dims(shape)) == Some(shape)
  {
    var d := Dims(shape);
    assert forall i :: 0 <= i < |shape| ==> d.vals[i] == Int(shape[i]);
    assert seq(|d.vals|, i requires 0 <= i < |d.vals| => d.vals[i].n) == shape;
  }

  lemma ContiguousProduct(shape: seq<nat>)
    ensures Product(Contiguous(shape)) == Product(shape)
  {
    if shape == [] { assert [1][..0] == []; }
  }

  lemma MarkerFields(v: Val, n: nat)
    ensures var m := Marker(v, n);
            && MarkerKey in m.keys && Lookup(m, MarkerKey) == Some(Int(n))
            && Lookup(m, Text("kind")) == Some(Text(if v.Array? then "ndarray" else "bytes"))
            && (v.Array? ==> Lookup(m, Text("shape")) == Some(Dims(Contiguous(v.shape))) &&
                             Lookup(m, Text("dtype")) == Some(Text(v.dtype)))
  {
    var m := Marker(v, n);
    assert m.keys[0] == MarkerKey && m.keys[1] == Text("kind") && |"kind"| == 4 && |MarkerKey.s| == 19;
    if v.Array? {
      assert |"shape"| == 5 && |"dtype"| == 5 && "shape"[0] != "dtype"[0];
      FourKeys(m);
    }
  }

  lemma FourKeys(m: Val)
    requires m.Dict? && |m.keys| == |m.vals| == 4
    requires forall i, j :: 0 <= i < j < 4 ==> m.keys[i] != m.keys[j]
    ensures forall i :: 0 <= i < 4 ==> Lookup(m, m.keys[i]) == Some(m.vals[i])
  {
    forall i | 0 <= i < 4 ensures Lookup(m, m.keys[i]) == Some(m.vals[i]) {
      var x := IndexOf(m.keys, m.keys[i]);
      assert m.keys[x] == m.keys[i];
    }
  }

  lemma Rebuilds(v: Val, size: string -> nat)
    requires v.Array? && Plain(v, size)
    ensures Rebuild(v.data, Some(Text(v.dtype)), Some(Dims(Contiguous(v.shape))), size) ==
            Some(v.(shape := Contiguous(v.shape)))
  {
    DimsRoundTrip(Contiguous(v.shape));
    ContiguousProduct(v.shape);
  }

  lemma MarkerRestores(v: Val, n: nat, thr: int, att: seq<seq<byte>>, size: string -> nat)
    requires Pulls(v, thr) && Plain(v, size) && n < |att| && att[n] == v.data
    ensures Reinject(Marker(v, n), att, size) == Some(Norm(v, thr))
  {
    MarkerFields(v, n);
    assert At(att, Some(Int(n))) == Some(v.data);
    if v.Array? {
      Rebuilds(v, size);
    } else {
      assert |"ndarray"| != |"bytes"|;
    }
  }

  /** The list holds these items from position n on. */
  predicate Holds(att: seq<seq<byte>>, n: nat, items: seq<seq<byte>>) {
    n + |items| <= |att| && att[n..n + |items|] == items
  }

  lemma HoldsSplit(att: seq<seq<byte>>, n: nat, p: seq<seq<byte>>, q: seq<seq<byte>>)
    requires Holds(att, n, p + q)
    ensures Holds(att, n, p) && Holds(att, n + |p|, q)
  {
    var all := att[n..n + |p + q|];
    assert att[n..n + |p|] == all[..|p|] && att[n + |p|..n + |p| + |q|] == all[|p|..];
  }

  lemma ReinjectPush(front: seq<Val>, last: Val, att: seq<seq<byte>>, size: string -> nat)
    requires ReinjectAll(front, att, size).Some? && Reinject(last, att, size).Some?
    ensures ReinjectAll(front + [last], att, size) ==
            Some(ReinjectAll(front, att, size).value + [Reinject(last, att, size).value])
  {
    assert (front + [last])[..|front|] == front;
  }

  /** Restoring undoes marking, for every value and every place the value's
      attachments may have in the list. */
  lemma {:induction false} ReinjectMark(v: Val, n: nat, thr: int, att: seq<seq<byte>>, size: string -> nat)
    requires Plain(v, size) && Holds(att, n, Pulled(v, thr))
    ensures Reinject(Mark(v, n, thr), att, size) == Some(Norm(v, thr))
    decreases v
  {
    if Pulls(v, thr) {
      assert att[n] == att[n..n + 1][0];
      MarkerRestores(v, n, thr, att, size);
    } else if v.Container?() {
      ReinjectMarkAll(v.vals, n, thr, att, size);
    }
  }

  lemma {:induction false} ReinjectMarkAll(vs: seq<Val>, n: nat, thr: int, att: seq<seq<byte>>, size: string -> nat)
    requires forall i :: 0 <= i < |vs| ==> Plain(vs[i], size)
    requires Holds(att, n, PulledAll(vs, thr))
    ensures ReinjectAll(MarkAll(vs, n, thr), att, size) == Some(NormAll(vs, thr))
    decreases vs
  {
    if vs != [] {
      var front, last := vs[..|vs| - 1], vs[|vs| - 1];
      HoldsSplit(att, n, PulledAll(front, thr), Pulled(last, thr));
      ReinjectMarkAll(front, n, thr, att, size);
      var k := n + |PulledAll(front, thr)|;
      ReinjectMark(last, k, thr, att, size);
      ReinjectPush(MarkAll(front, n, thr), Mark(last, k, thr), att, size);
    }
  }

  /** A message without attachments is left exactly as it was. */
  lemma {:induction false} NothingPulled(v: Val, n: nat, thr: int)
    requires Pulled(v, thr) == []
    ensures Mark(v, n, thr) == v && Norm(v, thr) == v
    decreases v
  {
    if v.Container?() { NothingPulledAll(v.vals, n, thr); }
  }

  lemma {:induction false} NothingPulledAll(vs: seq<Val>, n: nat, thr: int)
    requires PulledAll(vs, thr) == []
    ensures MarkAll(vs, n, thr) == vs && NormAll(vs, thr) == vs
    decreases vs
  {
    if vs != [] {
      NothingPulledAll(vs[..|vs| - 1], n, thr);
      NothingPulled(vs[|vs| - 1], n, thr);
      assert vs == vs[..|vs| - 1] + [vs[|vs| - 1]];
    }
  }

  /** What a marker is restored to, for any dictionary with the marker key: the
      buffer its index names, counted from the end if negative, as an array if it
      says so and the sizes agree, and otherwise as bytes; an exception if there is
      no such buffer or the sizes differ. */
  lemma MarkerReadIff(v: Val, att: seq<seq<byte>>, size: string -> nat, n: int)
    requires v.Dict? && MarkerKey in v.keys && Lookup(v, MarkerKey) == Some(Int(n))
    ensures var i := if n < 0 then |att| + n else n;
            var isArray := Lookup(v, Text("kind")) == Some(Text("ndarray"));
            && (!(0 <= i < |att|) ==> Reinject(v, att, size) == None)
            && (0 <= i < |att| && !isArray ==> Reinject(v, att, size) == Some(Bytes(att[i])))
            && (0 <= i < |att| && isArray ==>
                  (forall dtype, dims ::
                     Lookup(v, Text("dtype")) == Some(Text(dtype)) && Lookup(v, Text("shape")) == Some(Dims(dims)) ==>
                       Reinject(v, att, size) == if size(dtype) > 0 && |att[i]| == Product(dims) * size(dtype)
                                                 then Some(Array(dims, dtype, att[i])) else None))
  {
    forall dims: seq<nat> ensures ShapeOf(Dims(dims)) == Some(dims) { DimsRoundTrip(dims); }
  }

  // ---------------------------------------------------------------- what stays in the text

  /** Nothing left for a binary carrier: no array, and no byte string from the
      threshold on, anywhere in the tree. */
  predicate Light(v: Val, thr: int)
    decreases v
  {
    && !v.Array? && (v.Bytes? || v.ByteArray? ==> |v.data| < thr)
    && (v.Container?() ==> forall i :: 0 <= i < |v.vals| ==> Light(v.vals[i], thr))
  }

  lemma MarkerIsLight(v: Val, n: nat, thr: int)
    ensures Light(Marker(v, n), thr)
  {
    if v.Array? {
      var dims := Dims(Contiguous(v.shape));
      assert forall i :: 0 <= i < |dims.vals| ==> dims.vals[i].Int?;
      assert Light(dims, thr);
    }
  }

  /** What is written as text is light, whatever the message was. */
  lemma {:induction false} MarkIsLight(v: Val, n: nat, thr: int)
    ensures Light(Mark(v, n, thr), thr)
    decreases v
  {
    if Pulls(v, thr) {
      MarkerIsLight(v, n, thr);
    } else if v.Container?() {
      MarkAllLight(v.vals, n, thr);
    }
  }

  lemma {:induction false} MarkAllLight(vs: seq<Val>, n: nat, thr: int)
    ensures |MarkAll(vs, n, thr)| == |vs|
    ensures forall i :: 0 <= i < |vs| ==> Light(MarkAll(vs, n, thr)[i], thr)
    decreases vs
  {
    if vs != [] {
      var front := vs[..|vs| - 1];
      MarkAllLight(front, n, thr);
      MarkIsLight(vs[|vs| - 1], n + |PulledAll(front, thr)|, thr);
    }
  }

  /** Only messages that are not light are changed at all. */
  lemma {:induction false} LightStays(v: Val, n: nat, thr: int)
    requires Light(v, thr)
    ensures Pulled(v, thr) == [] && Mark(v, n, thr) == v
    decreases v
  {
    if v.Container?() {
      LightAllStays(v.vals, thr);
      NothingPulledAll(v.vals, n, thr);
    }
  }

  lemma {:induction false} LightAllStays(vs: seq<Val>, thr: int)
    requires forall i :: 0 <= i < |vs| ==> Light(vs[i], thr)
    ensures PulledAll(vs, thr) == []
    decreases vs
  {
    if vs != [] {
      LightAllStays(vs[..|vs| - 1], thr);
      LightStays(vs[|vs| - 1], 0, thr);
    }
  }

  // ---------------------------------------------------------------- what the text encoder accepts

  /** No object the encoder refuses stands anywhere in the tree, keys included. */
  predicate Dumps(v: Val, refused: set<nat>)
    decreases v
  {
    && (v.Other? ==> v.id !in refused)
    && (v.Dict? ==> forall i :: 0 <= i < |v.keys| ==> Dumps(v.keys[i], refused))
    && (v.Container?() ==> forall i :: 0 <= i < |v.vals| ==> Dumps(v.vals[i], refused))
  }

  predicate AllDump(vs: seq<Val>, refused: set<nat>) {
    forall i :: 0 <= i < |vs| ==> Dumps(vs[i], refused)
  }

  lemma MarkerDumps(v: Val, n: nat, refused: set<nat>)
    ensures Dumps(Marker(v, n), refused)
  {
    if v.Array? {
      var dims := Dims(Contiguous(v.shape));
      assert forall i :: 0 <= i < |dims.vals| ==> dims.vals[i].Int?;
      assert Dumps(dims, refused);
    }
  }

  /** The encoder treats two rows of values alike, one by one. */
  predicate Alike(xs: seq<Val>, ys: seq<Val>, refused: set<nat>) {
    |xs| == |ys| && forall i :: 0 <= i < |xs| ==> (Dumps(xs[i], refused) <==> Dumps(ys[i], refused))
  }

  lemma AlikeAll(xs: seq<Val>, ys: seq<Val>, refused: set<nat>)
    requires Alike(xs, ys, refused)
    ensures AllDump(xs, refused) <==> AllDump(ys, refused)
  {
  }

  /** Taking the attachments out changes nothing about what is refused: what they
      are replaced by is accepted, and so were they. */
  lemma {:induction false} MarkDumps(v: Val, n: nat, thr: int, refused: set<nat>)
    ensures Dumps(Mark(v, n, thr), refused) <==> Dumps(v, refused)
    decreases v
  {
    if Pulls(v, thr) {
      MarkerDumps(v, n, refused);
    } else if v.Container?() {
      var vs := MarkAll(v.vals, n, thr);
      MarkLength(v.vals, n, thr);
      forall j | 0 <= j < |vs| ensures Dumps(vs[j], refused) <==> Dumps(v.vals[j], refused) {
        MarkAtDumps(v.vals, n, thr, refused, j);
      }
      AlikeAll(vs, v.vals, refused);
    }
  }

  lemma {:induction false} MarkAtDumps(vs: seq<Val>, n: nat, thr: int, refused: set<nat>, j: nat)
    requires j < |vs|
    ensures j < |MarkAll(vs, n, thr)| && (Dumps(MarkAll(vs, n, thr)[j], refused) <==> Dumps(vs[j], refused))
    decreases vs
  {
    var front := vs[..|vs| - 1];
    MarkLength(front, n, thr);
    if j < |front| {
      MarkAtDumps(front, n, thr, refused, j);
    } else {
      MarkDumps(vs[j], n + |PulledAll(front, thr)|, thr, refused);
    }
  }

  lemma {:induction false} MarkLength(vs: seq<Val>, n: nat, thr: int)
    ensures |MarkAll(vs, n, thr)| == |vs|
    decreases |vs|
  {
    if vs != [] { MarkLength(vs[..|vs| - 1], n, thr); }
  }

  lemma MarkAllDumps(vs: seq<Val>, n: nat, thr: int, refused: set<nat>)
    ensures Alike(MarkAll(vs, n, thr), vs, refused)
  {
    MarkLength(vs, n, thr);
    forall j | 0 <= j < |vs| ensures Dumps(MarkAll(vs, n, thr)[j], refused) <==> Dumps(vs[j], refused) {
      MarkAtDumps(vs, n, thr, refused, j);
    }
  }
}

/** Typed merge functions and their byte-level form (`bitboxsync/merge.go`,
    `bitboxsync/collection.go:151-184`, `bitboxsync/engine_discovery.go:123-131`). */
module MergePolicies {
  import opened Prelude
  import opened ItemState
  import opened ItemLog
  import opened Network
  import opened PassSpec
  import opened PassResults

  /** A codec may reject values and byte strings. */
  datatype Codec<!T> = Codec(encode: T -> Option<Bytes>, decode: Bytes -> Option<T>)

  datatype Answer<T> = Chosen(value: T) | Undecided | Error

  type Merge<!T> = (string, Option<T>, T, T) -> Answer<T>

  function PreferLocal<T>(): Merge<T> {
    (_, _, local, _) => Chosen(local)
  }

  function PreferRemote<T>(): Merge<T> {
    (_, _, _, remote) => Chosen(remote)
  }

  function NoMerge<T>(): Merge<T> {
    (_, _, _, _) => Undecided
  }

  /** Decoding undoes encoding. */
  ghost predicate Faithful<T(!new)>(codec: Codec<T>) {
    forall x :: codec.encode(x).Some? ==> codec.decode(codec.encode(x).value) == Some(x)
  }

  /** `b` is what the codec produces for some value. */
  predicate IsEncoding<T>(codec: Codec<T>, b: Bytes) {
    codec.decode(b).Some? && codec.encode(codec.decode(b).value) == Some(b)
  }

  lemma EncodingsAreImages<T(!new)>(codec: Codec<T>, b: Bytes)
    requires Faithful(codec)
    ensures IsEncoding(codec, b) <==> exists x :: codec.encode(x) == Some(b)
  {
  }

  type BytesMerge = (string, Option<Bytes>, Bytes, Bytes) -> MergeOutcome

  function Encoded<T>(codec: Codec<T>, answer: Answer<T>): MergeOutcome {
    match answer
    case Chosen(y) => if codec.encode(y).Some? then Resolved(codec.encode(y).value) else Broken
    case Undecided => Unresolved
    case Error => Broken
  }

  /** One call of the function `makeMergeBytes` returns: decode the inputs in order, merge, encode. */
  function MergeBytes<T>(codec: Codec<T>, merge: Merge<T>, name: string, base: Option<Bytes>, local: Bytes,
          remote: Bytes): MergeOutcome {
    if base.Some? && codec.decode(base.value).None? then Broken
    else
      var baseValue := if base.Some? then Some(codec.decode(base.value).value) else None;
      if codec.decode(local).None? || codec.decode(remote).None? then Broken
      else Encoded(codec, merge(name, baseValue, codec.decode(local).value, codec.decode(remote).value))
  }

  /** `makeMergeBytes`. */
  function MakeMergeBytes<T>(codec: Codec<T>, merge: Merge<T>): BytesMerge {
    (name: string, base: Option<Bytes>, local: Bytes, remote: Bytes) => MergeBytes(codec, merge, name, base, local,
        remote)
  }

  /** The byte-level merge of encodings is the encoding of the typed merge. */
  lemma MergeCommutesWithEncoding<T(!new)>(codec: Codec<T>, merge: Merge<T>, name: string, base: Option<T>, local: T,
          remote: T)
    requires Faithful(codec) && codec.encode(local).Some? && codec.encode(remote).Some?
    requires base.Some? ==> codec.encode(base.value).Some?
    ensures var baseBytes := if base.Some? then codec.encode(base.value) else None;
      MakeMergeBytes(codec, merge)(name, baseBytes, codec.encode(local).value, codec.encode(remote).value)
         == Encoded(codec, merge(name, base, local, remote))
  {
  }

  /** `applyMerge`: the registered collection decides; without one the difference stays. */
  function ApplyMerge(handlers: map<string, BytesMerge>): MergeFn {
    (k: Key, base: Option<Bytes>, local: Bytes, remote: Bytes) =>
      if k.collection in handlers then handlers[k.collection](k.name, base, local, remote) else Unresolved
  }

  /** In a collection without a registered merge function every difference is recorded as a conflict, over the old
      base and with the local value in place. */
  lemma UnregisteredConflicts(v: View, k: Key, handlers: map<string, BytesMerge>, local: Bytes, rv: nat, remote: Bytes)
    requires k.collection !in handlers && local != remote
    ensures var r := MergeRemote(v, k, ApplyMerge(handlers), local, rv, remote);
      && r.value == v.value && r.hist == v.hist && r.meta.Some?
      && var m, m' := Loaded(v.meta), r.meta.value;
        && m'.conflict && m'.dirty && m'.version == m'.conflictVersion == rv && m'.conflictValue == remote
        && m'.baseVersion == m.baseVersion && m'.baseValue == m.baseValue
  {
    assert ApplyMerge(handlers)(k, BaseOf(Loaded(v.meta)), local, remote) == Unresolved;
  }

  /** The encodings of the registered collections. */
  function EncodingsOf<T>(codecs: map<string, Codec<T>>): Domain {
    (k: Key, b: Bytes) => k.collection in codecs && IsEncoding(codecs[k.collection], b)
  }

  /** Every collection is registered with one of the two policies that always decide. */
  ghost predicate AlwaysDecides<T(!new)>(codecs: map<string, Codec<T>>, handlers: map<string, BytesMerge>) {
    && handlers.Keys == codecs.Keys
    && forall name :: name in codecs ==>
      handlers[name] == MakeMergeBytes(codecs[name], PreferLocal())
          || handlers[name] == MakeMergeBytes(codecs[name], PreferRemote())
  }

  /** `PreferLocal` keeps the local value and `PreferRemote` takes the remote one, whatever the base. */
  lemma PoliciesChoose<T(!new)>(codec: Codec<T>, name: string, base: Option<Bytes>, local: Bytes, remote: Bytes)
    requires (base.Some? ==> IsEncoding(codec, base.value)) && IsEncoding(codec, local) && IsEncoding(codec, remote)
    ensures MergeBytes(codec, PreferLocal(), name, base, local, remote) == Resolved(local)
    ensures MergeBytes(codec, PreferRemote(), name, base, local, remote) == Resolved(remote)
  {
    var baseValue := if base.Some? then Some(codec.decode(base.value).value) else None;
    var l, r := codec.decode(local).value, codec.decode(remote).value;
    assert PreferLocal<T>()(name, baseValue, l, r) == Chosen(l);
    assert PreferRemote<T>()(name, baseValue, l, r) == Chosen(r);
  }

  /** `PreferLocal` and `PreferRemote` resolve everything the convergence theorem needs resolved. */
  lemma PoliciesResolve<T(!new)>(codecs: map<string, Codec<T>>, handlers: map<string, BytesMerge>)
    requires AlwaysDecides(codecs, handlers)
    ensures Resolving(ApplyMerge(handlers), EncodingsOf(codecs))
  {
    var merge, enc := ApplyMerge(handlers), EncodingsOf(codecs);
    forall k, b: Option<Bytes>, l, r | (b.Some? ==> enc(k, b.value)) && enc(k, l) && enc(k, r)
      ensures merge(k, b, l, r) == Resolved(l) || merge(k, b, l, r) == Resolved(r)
    {
      assert merge(k, b, l, r) == handlers[k.collection](k.name, b, l, r);
    }
  }

  /** `PreferLocal` keeps an oversized local value, so the exact form of the convergence theorem applies. */
  lemma PreferLocalIsStubborn<T(!new)>(codecs: map<string, Codec<T>>, handlers: map<string, BytesMerge>)
    requires handlers.Keys == codecs.Keys
    requires forall name :: name in codecs ==> handlers[name] == MakeMergeBytes(codecs[name], PreferLocal())
    ensures Stubborn(ApplyMerge(handlers), EncodingsOf(codecs)) && Resolving(ApplyMerge(handlers), EncodingsOf(codecs))
  {
    PoliciesResolve(codecs, handlers);
    var merge, enc := ApplyMerge(handlers), EncodingsOf(codecs);
    forall k, b: Option<Bytes>, l, r | (b.Some? ==> enc(k, b.value)) && enc(k, l) && enc(k, r)
      ensures merge(k, b, l, r) == Resolved(l)
    {
      assert merge(k, b, l, r) == handlers[k.collection](k.name, b, l, r);
    }
  }

  /** `NoMerge` resolves nothing: on encodings it always leaves the conflict to the application. */
  lemma NoMergeNeverResolves<T>(codec: Codec<T>, name: string, base: Option<Bytes>, local: Bytes, remote: Bytes)
    ensures var outcome := MergeBytes(codec, NoMerge(), name, base, local, remote);
      && !outcome.Resolved?
      && (outcome.Unresolved? <==>
          (base.Some? ==> codec.decode(base.value).Some?) && codec.decode(local).Some? && codec.decode(remote).Some?)
  {
    if (base.Some? ==> codec.decode(base.value).Some?) && codec.decode(local).Some? && codec.decode(remote).Some? {
      var baseValue := if base.Some? then Some(codec.decode(base.value).value) else None;
      assert NoMerge<T>()(name, baseValue, codec.decode(local).value, codec.decode(remote).value) == Undecided;
    }
  }
}

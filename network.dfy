/** The payload helper of the network package: pass raw bytes through, encode
    everything else with the configured serializer. */
module Network {
  import opened Base

  /** The dynamic value handed to `serializeOrRaw`: either already a `[]byte`
      (the type assertion succeeds) or any other value of type `V`. */
  datatype Value<V> = Raw(bytes: Bytes) | Structured(value: V)

  /** `serializeOrRaw`, with the package's serializer passed in as `serialize`. */
  function SerializeOrRaw<V>(v: Value<V>, serialize: V -> BytesOrError): (r: BytesOrError)
    // raw bytes come back untouched and without error
    ensures v.Raw? ==> r == BytesOrError(v.bytes, None)
    // a successful serialization is returned as is
    ensures v.Structured? && serialize(v.value).err.None? ==> r == BytesOrError(serialize(v.value).data, None)
    // a failed serialization yields no data and the serializer's own error
    ensures v.Structured? && serialize(v.value).err.Some? ==> r == BytesOrError([], serialize(v.value).err)
    // the only source of an error is a failing serializer on a non-raw value
    ensures r.err.Some? <==> v.Structured? && serialize(v.value).err.Some?
  {
    match v
    case Raw(data) => BytesOrError(data, None)
    case Structured(x) =>
      var out := serialize(x);
      if out.err.Some? then BytesOrError([], out.err) else BytesOrError(out.data, None)
  }

  /** The serializer is never consulted for raw bytes: the result does not
      depend on which serializer is configured. */
  lemma RawIgnoresSerializer<V>(b: Bytes, s1: V -> BytesOrError, s2: V -> BytesOrError)
    ensures SerializeOrRaw(Raw(b), s1) == SerializeOrRaw(Raw(b), s2) == BytesOrError(b, None)
  {
  }
}

/**
 * The demo feature bitset (prboom2/src/dsda/features.c): a 64-bit mask of
 * features a recording has used, and its 8-byte little-endian serialisation
 * into a demo footer.
 */
module Features {

  /** A feature number: 0..63, one bit each in a `uint64_t`. */
  type FeatureId = f: bv64 | f < 64

  /** FEATURE_BIT(f): the mask holding feature f alone. */
  function FeatureBit(f: FeatureId): (b: bv64)
    ensures forall g: FeatureId :: Has(b, g) <==> g == f
  {
    1 << f
  }

  /** Whether feature f is recorded in the mask. */
  predicate Has(mask: bv64, f: FeatureId) {
    (mask >> f) & 1 == 1
  }

  /** Or-ing a mask in records exactly the features of either operand. */
  lemma HasUnion(m: bv64, s: bv64, g: FeatureId)
    ensures Has(m | s, g) <==> Has(m, g) || Has(s, g)
  {
  }

  /**
   * `after` records exactly the features recorded in `before` or in `added`:
   * nothing is lost and nothing else appears.
   */
  ghost predicate AddsFeatures(before: bv64, added: bv64, after: bv64) {
    forall g: FeatureId :: Has(after, g) <==> Has(before, g) || Has(added, g)
  }

  /** Or-ing a mask in adds exactly its features. */
  lemma UnionAdds(m: bv64, s: bv64)
    ensures AddsFeatures(m, s, m | s)
  {
    forall g: FeatureId ensures Has(m | s, g) <==> Has(m, g) || Has(s, g) {
      HasUnion(m, s, g);
    }
  }

  /** The empty mask records no feature. */
  lemma EmptyHasNone(g: FeatureId)
    ensures !Has(0, g)
  {
  }

  /**
   * The static `used_features` of features.c: the features used so far by
   * the current recording.
   */
  class FeatureLog {
    var usedFeatures: bv64

    /** Static storage starts zeroed. */
    constructor ()
      ensures usedFeatures == 0
    {
      usedFeatures := 0;
    }

    /** dsda_TrackFeature: records feature f and keeps every other bit. */
    method TrackFeature(f: FeatureId)
      modifies this
      ensures usedFeatures == old(usedFeatures) | FeatureBit(f)
      ensures AddsFeatures(old(usedFeatures), FeatureBit(f), usedFeatures)
    {
      UnionAdds(usedFeatures, FeatureBit(f));
      usedFeatures := usedFeatures | FeatureBit(f);
    }

    /** dsda_ResetFeatures: forgets every recorded feature. */
    method ResetFeatures()
      modifies this
      ensures usedFeatures == 0
      ensures forall g: FeatureId :: !Has(usedFeatures, g)
    {
      usedFeatures := 0;
      forall g: FeatureId ensures !Has(usedFeatures, g) {
        EmptyHasNone(g);
      }
    }

    /** dsda_UsedFeatures: reads the mask and changes nothing. */
    method UsedFeatures() returns (r: bv64)
      ensures r == usedFeatures
      ensures forall g: FeatureId :: (Has(r, g) <==> Has(usedFeatures, g))
    {
      r := usedFeatures;
    }

    /** dsda_MergeFeatures: adds the features of another mask. */
    method MergeFeatures(source: bv64)
      modifies this
      ensures usedFeatures == old(usedFeatures) | source
      ensures AddsFeatures(old(usedFeatures), source, usedFeatures)
    {
      UnionAdds(usedFeatures, source);
      usedFeatures := usedFeatures | source;
    }
  }

  /** Merging the same mask twice records nothing new. */
  lemma MergeIdempotent(m: bv64, s: bv64)
    ensures (m | s) | s == m | s
  {
  }

  /**
   * Reads 8 bytes back as a little-endian 64-bit value: byte k contributes
   * byte_k * 256^k, i.e. it is shifted left by 8k bits.
   */
  function LittleEndianValue(b: seq<bv8>): bv64
    requires |b| == 8
  {
    (b[0] as bv64)
    | ((b[1] as bv64) << 8)
    | ((b[2] as bv64) << 16)
    | ((b[3] as bv64) << 24)
    | ((b[4] as bv64) << 32)
    | ((b[5] as bv64) << 40)
    | ((b[6] as bv64) << 48)
    | ((b[7] as bv64) << 56)
  }

  /** Byte k of the serialisation: `(source >> 8k) & 0xff`. */
  function ByteOf(source: bv64, k: bv64): (r: bv8)
    requires k < 8
  {
    ((source >> (k << 3)) & 0xff) as bv8
  }

  /** The serialisation written by dsda_CopyFeatures2: byte k is ByteOf(source, k). */
  function FeatureBytes(source: bv64): (r: seq<bv8>)
    ensures |r| == 8
  {
    [ByteOf(source, 0), ByteOf(source, 1), ByteOf(source, 2), ByteOf(source, 3),
     ByteOf(source, 4), ByteOf(source, 5), ByteOf(source, 6), ByteOf(source, 7)]
  }

  /**
   * The serialisation is an exact little-endian encoding: reading it back
   * yields the source mask.
   */
  lemma FeatureBytesValue(source: bv64)
    ensures LittleEndianValue(FeatureBytes(source)) == source
  {
  }

  /** The other direction: any 8 bytes are the serialisation of their value. */
  lemma FeatureBytesOfValue(b: seq<bv8>)
    requires |b| == 8
    ensures FeatureBytes(LittleEndianValue(b)) == b
  {
  }

  /**
   * dsda_CopyFeatures2: writes exactly result[0..7], byte k being bits
   * 8k..8k+7 of the source, and nothing beyond.
   */
  method CopyFeatures2(result: array<bv8>, source: bv64)
    requires result.Length >= 8
    modifies result
    ensures result[..8] == FeatureBytes(source)
    ensures result[8..] == old(result[8..])
  {
    result[0] := ByteOf(source, 0);
    result[1] := ByteOf(source, 1);
    // Every two stores: the bytes past the footer are still the old ones.
    assert result[8..] == old(result[8..]);
    result[2] := ByteOf(source, 2);
    result[3] := ByteOf(source, 3);
    assert result[8..] == old(result[8..]);
    result[4] := ByteOf(source, 4);
    result[5] := ByteOf(source, 5);
    assert result[8..] == old(result[8..]);
    result[6] := ByteOf(source, 6);
    result[7] := ByteOf(source, 7);
    assert result[..8] == FeatureBytes(source);
  }
}

/**
 * The store's key scheme (x/futchain/keeper/types.go): every key is a fixed
 * ASCII prefix naming the entity kind, followed by the 8-byte big-endian
 * encoding of `uint64(id)`.
 */
module Keys {
  import opened GoInts
  import opened Bytes

  /** The bytes of an ASCII string. */
  function Ascii(s: string): (b: Bytes)
    requires forall i :: 0 <= i < |s| ==> s[i] as int < 128
    ensures |b| == |s|
    ensures forall i :: 0 <= i < |s| ==> b[i] == s[i] as int
  {
    seq(|s|, i requires 0 <= i < |s| => s[i] as int)
  }

  const TeamPrefix: Bytes := Ascii("team")
  const MatchPrefix: Bytes := Ascii("match")
  const LeaguePrefix: Bytes := Ascii("league")
  /** The unfinished-match index, a side index keyed by match id. */
  const UnfinishedPrefix: Bytes := Ascii("match_unfinished")

  datatype Kind = TeamKind | MatchKind | LeagueKind | UnfinishedKind

  function Prefix(kind: Kind): Bytes
  {
    match kind
    case TeamKind => TeamPrefix
    case MatchKind => MatchPrefix
    case LeagueKind => LeaguePrefix
    case UnfinishedKind => UnfinishedPrefix
  }

  /**
   * `Keeper.TeamKey`, `MatchKey`, `LeagueKey` and `MatchKeyUnfinished`:
   * the kind's prefix, then `sdk.Uint64ToBigEndian(uint64(id))`.
   */
  function Key(kind: Kind, id: Int64): (k: Bytes)
    ensures |k| == |Prefix(kind)| + 8
    ensures k[..|Prefix(kind)|] == Prefix(kind)
    ensures BigEndianToUint64(k[|Prefix(kind)|..]) == ToUint64(id)
  {
    var suffix := Uint64ToBigEndian(ToUint64(id));
    var k := Prefix(kind) + suffix;
    assert k[|Prefix(kind)|..] == suffix;
    Uint64BigEndianRoundTrip(ToUint64(id));
    k
  }

  /** The id a key of the given kind stands for: `int` of its last 8 bytes. */
  function IdOf(kind: Kind, k: Bytes): Int64
    requires |k| == |Prefix(kind)| + 8
  {
    ToInt64(BigEndianToUint64(k[|Prefix(kind)|..]))
  }

  lemma KeyLengths(id: Int64)
    ensures |Key(TeamKind, id)| == 12
    ensures |Key(MatchKind, id)| == 13
    ensures |Key(LeagueKind, id)| == 14
    ensures |Key(UnfinishedKind, id)| == 24
  {
  }

  lemma KeyRoundTrip(kind: Kind, id: Int64)
    ensures IdOf(kind, Key(kind, id)) == id
  {
    SignedUnsignedRoundTrip(id, 0);
  }

  /** Within one kind, distinct ids have distinct keys. */
  lemma KeyInjective(kind: Kind, a: Int64, b: Int64)
    requires Key(kind, a) == Key(kind, b)
    ensures a == b
  {
    KeyRoundTrip(kind, a);
    KeyRoundTrip(kind, b);
  }

  /** Keys of different kinds never coincide: their lengths differ. */
  lemma KindsDisjoint(k1: Kind, k2: Kind, a: Int64, b: Int64)
    requires k1 != k2
    ensures Key(k1, a) != Key(k2, b)
  {
    KeyLengths(a);
    KeyLengths(b);
  }

  /** "match" is a byte prefix of "match_unfinished": index keys also start with the match prefix. */
  lemma UnfinishedKeysStartWithMatchPrefix(id: Int64)
    ensures Key(UnfinishedKind, id)[..|MatchPrefix|] == MatchPrefix
  {
    var k := Key(UnfinishedKind, id);
    assert k[..16] == UnfinishedPrefix;
    assert UnfinishedPrefix[..5] == MatchPrefix;
  }

  /** Within one kind, key order is the `uint64` order of the ids. */
  lemma KeyOrder(kind: Kind, a: Int64, b: Int64)
    ensures LexLess(Key(kind, a), Key(kind, b)) <==> ToUint64(a) < ToUint64(b)
  {
    var p := Prefix(kind);
    var sa, sb := Uint64ToBigEndian(ToUint64(a)), Uint64ToBigEndian(ToUint64(b));
    assert Key(kind, a) == p + sa && Key(kind, b) == p + sb;
    LexCommonPrefix(p, sa, sb);
    BigEndianOrder(sa, sb);
    Uint64BigEndianRoundTrip(ToUint64(a));
    Uint64BigEndianRoundTrip(ToUint64(b));
  }

  /** So a negative id sorts after every non-negative id of its kind. */
  lemma NegativeIdsSortLast(kind: Kind, a: Int64, b: Int64)
    requires 0 <= a && b < 0
    ensures LexLess(Key(kind, a), Key(kind, b))
  {
    KeyOrder(kind, a, b);
  }

  /** A scan starting at the index prefix with no end reaches every team key. */
  lemma TeamKeysFollowUnfinishedPrefix(id: Int64)
    ensures LexLess(UnfinishedPrefix, Key(TeamKind, id))
  {
    var k := Key(TeamKind, id);
    assert k[..4] == TeamPrefix;
    assert k[0] == 116 && UnfinishedPrefix[0] == 109;
  }

  /** ... but no league key. */
  lemma LeagueKeysPrecedeUnfinishedPrefix(id: Int64)
    ensures LexLess(Key(LeagueKind, id), UnfinishedPrefix)
  {
    var k := Key(LeagueKind, id);
    assert k[..6] == LeaguePrefix;
    assert k[0] == 108 && UnfinishedPrefix[0] == 109;
  }

  /** Every index key lies in that scan. */
  lemma UnfinishedKeysFollowUnfinishedPrefix(id: Int64)
    ensures LexLe(UnfinishedPrefix, Key(UnfinishedKind, id))
  {
    var k := Key(UnfinishedKind, id);
    assert k == UnfinishedPrefix + k[16..];
    LexPrefixLe(UnfinishedPrefix, k[16..]);
  }
}

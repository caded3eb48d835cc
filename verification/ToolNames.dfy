/** Tool names as the model sees them: a routing prefix, server and tool, at most 64 bytes, with a hash
    suffix when the full identity is longer. */
module ToolNames {
  import opened Utf8

  const EXT_PREFIX := "ext__"
  const MCP_PREFIX := "mcp__"
  const DELIM := "__"
  const MAX_TOOL_NAME_LENGTH: nat := 64
  const HASH_LEN: nat := 12

  /** The hash of an identity in hex: any function whose digest has the fixed length. */
  ghost predicate IsDigest(hash: string -> string) {
    forall identity :: |hash(identity)| == HASH_LEN && IsAscii(hash(identity))
  }

  function HashSuffix(hash: string -> string, identity: string): string {
    "_" + hash(identity)
  }

  function Bytes(s: string): nat {
    |Encode(s)|
  }

  function Identity(prefix: string, server: string, tool: string): string {
    prefix + server + DELIM + tool
  }

  /** Shortens to at most `max` bytes without splitting a character. */
  method Truncate(s: string, max: nat) returns (kept: string)
    ensures kept == s[..Fitting(s, max)]
    ensures kept <= s && Bytes(kept) <= max
  {
    FittingIsLongest(s, max);
    var bytes := Encode(s);
    if |bytes| <= max {
      assert s[..|s|] == s;
      return s;
    }
    var end := FloorCharBoundary(s, max);
    kept := SliceTo(s, end);
  }

  method Encoded(hash: string -> string, prefix: string, server: string, tool: string) returns (name: string)
    requires IsDigest(hash)
    ensures name == EncodedName(hash, prefix, server, tool)
  {
    var namespace := prefix + server + DELIM;
    var full := namespace + tool;
    if |Encode(full)| <= MAX_TOOL_NAME_LENGTH { return full; }
    var suffix := HashSuffix(hash, full);
    var room := if MAX_TOOL_NAME_LENGTH >= |Encode(namespace)| then MAX_TOOL_NAME_LENGTH - |Encode(namespace)| else 0;
    SuffixBytes(hash, full);
    if room >= |Encode(suffix)| {
      var kept := Truncate(tool, room - |Encode(suffix)|);
      name := namespace + kept + suffix;
    } else {
      var kept := Truncate(namespace, MAX_TOOL_NAME_LENGTH - |Encode(suffix)|);
      name := kept + suffix;
    }
  }

  const SUFFIX_BYTES: nat := HASH_LEN + 1

  lemma SuffixBytes(hash: string -> string, identity: string)
    requires IsDigest(hash)
    ensures Bytes(HashSuffix(hash, identity)) == |HashSuffix(hash, identity)| == SUFFIX_BYTES
  {
    assert IsAscii(hash(identity));
    AsciiLength(HashSuffix(hash, identity));
  }

  /** The name, split at the point where truncation may fall. */
  function EncodedName(hash: string -> string, prefix: string, server: string, tool: string): string {
    var namespace := prefix + server + DELIM;
    var full := Identity(prefix, server, tool);
    if Bytes(full) <= MAX_TOOL_NAME_LENGTH then full
    else if Bytes(namespace) + SUFFIX_BYTES <= MAX_TOOL_NAME_LENGTH then
      namespace + tool[..Fitting(tool, MAX_TOOL_NAME_LENGTH - Bytes(namespace) - SUFFIX_BYTES)] + HashSuffix(hash, full)
    else
      namespace[..Fitting(namespace, MAX_TOOL_NAME_LENGTH - SUFFIX_BYTES)] + HashSuffix(hash, full)
  }

  /** The name is as much of `whole` as fits in `max` bytes, between `front` and `end`. */
  ghost predicate Cut(name: string, front: string, whole: string, max: nat, end: string) {
    exists kept: string :: LongestWithin(kept, whole, max) && name == front + kept + end
  }

  /** A name that fits is the identity itself; a longer one loses the end of the tool, and only if the
      server leaves no room for the hash, the end of the server instead, and never more than it must. */
  lemma NameReads(hash: string -> string, prefix: string, server: string, tool: string)
    ensures var name, whole, digest := EncodedName(hash, prefix, server, tool), prefix + server + "__" + tool,
              "_" + hash(prefix + server + "__" + tool);
            var front := Bytes(prefix + server + "__");
            if Bytes(whole) <= 64 then name == whole
            else if front <= 51 then Cut(name, prefix + server + "__", tool, 51 - front, digest)
            else Cut(name, "", prefix + server + "__", 51, digest)
  {
    var namespace, digest := prefix + server + DELIM, HashSuffix(hash, Identity(prefix, server, tool));
    if Bytes(Identity(prefix, server, tool)) > MAX_TOOL_NAME_LENGTH {
      if Bytes(namespace) + SUFFIX_BYTES <= MAX_TOOL_NAME_LENGTH {
        CutThere(namespace, tool, MAX_TOOL_NAME_LENGTH - Bytes(namespace) - SUFFIX_BYTES, digest);
      } else {
        CutThere("", namespace, MAX_TOOL_NAME_LENGTH - SUFFIX_BYTES, digest);
        assert "" + namespace[..Fitting(namespace, 51)] == namespace[..Fitting(namespace, 51)];
      }
    }
  }

  lemma {:induction false} CutThere(front: string, whole: string, max: nat, end: string)
    ensures Cut(front + whole[..Fitting(whole, max)] + end, front, whole, max, end)
  {
    FittingLongestWithin(whole, max);
  }

  predicate IsExtToolName(name: string) {
    EXT_PREFIX <= name
  }

  predicate IsMcpToolName(name: string) {
    MCP_PREFIX <= name
  }

  /** Every encoded name fits the limit, whatever characters it is made of. */
  lemma NameFits(hash: string -> string, prefix: string, server: string, tool: string)
    requires IsDigest(hash)
    ensures Bytes(EncodedName(hash, prefix, server, tool)) <= MAX_TOOL_NAME_LENGTH
  {
    var namespace := prefix + server + DELIM;
    var full := Identity(prefix, server, tool);
    SuffixBytes(hash, full);
    if Bytes(full) > MAX_TOOL_NAME_LENGTH {
      if Bytes(namespace) + SUFFIX_BYTES <= MAX_TOOL_NAME_LENGTH {
        var room := MAX_TOOL_NAME_LENGTH - Bytes(namespace) - SUFFIX_BYTES;
        FittingIsLongest(tool, room);
        EncodeConcat(namespace, tool[..Fitting(tool, room)]);
        EncodeConcat(namespace + tool[..Fitting(tool, room)], HashSuffix(hash, full));
      } else {
        FittingIsLongest(namespace, MAX_TOOL_NAME_LENGTH - SUFFIX_BYTES);
        EncodeConcat(namespace[..Fitting(namespace, MAX_TOOL_NAME_LENGTH - SUFFIX_BYTES)], HashSuffix(hash, full));
      }
    }
  }

  /** A short ASCII prefix survives truncation. */
  lemma {:induction false} PrefixSurvives(prefix: string, rest: string, max: nat)
    requires IsAscii(prefix) && |prefix| <= max
    ensures prefix <= (prefix + rest)[..Fitting(prefix + rest, max)]
  {
    AsciiLength(prefix);
    FittingIsLongest(prefix + rest, max);
    assert (prefix + rest)[..|prefix|] == prefix;
  }

  /** The name routes to the kind of tool it was encoded for, and to no other. */
  lemma NameRoutes(hash: string -> string, server: string, tool: string)
    ensures var name := EncodedName(hash, EXT_PREFIX, server, tool);
            IsExtToolName(name) && !IsMcpToolName(name)
    ensures var name := EncodedName(hash, MCP_PREFIX, server, tool);
            IsMcpToolName(name) && !IsExtToolName(name)
  {
    PrefixKept(hash, EXT_PREFIX, server, tool);
    PrefixKept(hash, MCP_PREFIX, server, tool);
  }

  lemma PrefixKept(hash: string -> string, prefix: string, server: string, tool: string)
    requires IsAscii(prefix) && |prefix| == 5
    ensures prefix <= EncodedName(hash, prefix, server, tool)
  {
    var namespace := prefix + server + DELIM;
    assert namespace == prefix + (server + DELIM);
    PrefixSurvives(prefix, server + DELIM, MAX_TOOL_NAME_LENGTH - SUFFIX_BYTES);
  }

  /** Two over-long identities get different names whenever their hash suffixes differ. */
  lemma LongNamesDistinct(hash: string -> string, p1: string, s1: string, t1: string, p2: string, s2: string, t2: string)
    requires IsDigest(hash)
    requires Bytes(Identity(p1, s1, t1)) > MAX_TOOL_NAME_LENGTH && Bytes(Identity(p2, s2, t2)) > MAX_TOOL_NAME_LENGTH
    requires hash(Identity(p1, s1, t1)) != hash(Identity(p2, s2, t2))
    ensures EncodedName(hash, p1, s1, t1) != EncodedName(hash, p2, s2, t2)
  {
    EndsWithHash(hash, p1, s1, t1);
    EndsWithHash(hash, p2, s2, t2);
    EndsDecide(EncodedName(hash, p1, s1, t1), EncodedName(hash, p2, s2, t2),
               hash(Identity(p1, s1, t1)), hash(Identity(p2, s2, t2)));
  }

  ghost predicate EndsWith(name: string, tail: string) {
    exists front: string :: name == front + tail
  }

  lemma EndsDecide(a: string, b: string, tailA: string, tailB: string)
    requires EndsWith(a, tailA) && EndsWith(b, tailB) && |tailA| == |tailB| && tailA != tailB
    ensures a != b
  {
    var frontA: string, frontB: string :| a == frontA + tailA && b == frontB + tailB;
    assert a[|frontA|..] == tailA && b[|frontB|..] == tailB;
  }

  lemma EndsWithHash(hash: string -> string, prefix: string, server: string, tool: string)
    requires IsDigest(hash) && Bytes(Identity(prefix, server, tool)) > MAX_TOOL_NAME_LENGTH
    ensures EndsWith(EncodedName(hash, prefix, server, tool), hash(Identity(prefix, server, tool)))
    ensures |hash(Identity(prefix, server, tool))| == HASH_LEN
  {
    var namespace := prefix + server + DELIM;
    var digest := hash(Identity(prefix, server, tool));
    if Bytes(namespace) + SUFFIX_BYTES <= MAX_TOOL_NAME_LENGTH {
      SuffixEnds(namespace + tool[..Fitting(tool, MAX_TOOL_NAME_LENGTH - Bytes(namespace) - SUFFIX_BYTES)], digest);
    } else {
      SuffixEnds(namespace[..Fitting(namespace, MAX_TOOL_NAME_LENGTH - SUFFIX_BYTES)], digest);
    }
  }

  lemma SuffixEnds(front: string, digest: string)
    ensures EndsWith(front + ("_" + digest), digest)
  {
    assert front + ("_" + digest) == (front + "_") + digest;
  }
}

/**
 * Stable identities for message nodes (`getNodeId` in src/utils/utils.ts): a
 * node keeps the `data-testid` it has; a node without one (or with an empty
 * one) gets a fallback id made from the clock and a random base-36 string,
 * written back onto the node. The clock reading and the random string are
 * parameters.
 */
module NodeIds {
  import opened Wrappers
  import opened Browser
  import opened Decimal

  const FallbackPrefix: string := "fallback-"

  /** The node already has an id: a `data-testid` that is not the empty string. */
  predicate HasId(testid: Option<string>) {
    testid.Some? && testid.value != ""
  }

  /** The generated id for clock reading `now` (milliseconds) and random digits `random`. */
  function FallbackId(now: nat, random: string): (id: string)
    ensures |id| > |FallbackPrefix| && id[..|FallbackPrefix|] == FallbackPrefix
  {
    FallbackPrefix + NatText(now) + "-" + random
  }

  /** The id `getNodeId` returns for a node whose `data-testid` is `testid`. */
  function NodeId(testid: Option<string>, now: nat, random: string): (id: string)
    ensures id != ""
    ensures HasId(testid) ==> id == testid.value
    ensures !HasId(testid) ==> id == FallbackId(now, random)
  {
    if HasId(testid) then testid.value else FallbackId(now, random)
  }

  /** The longest prefix of `s` made of decimal digits. */
  function LeadingDigits(s: string): (d: string)
    ensures |d| <= |s| && d == s[..|d|] && AllDigits(d)
    ensures |d| < |s| ==> !IsDigit(s[|d|])
  {
    if s == [] || !IsDigit(s[0]) then [] else [s[0]] + LeadingDigits(s[1..])
  }

  /** Reads a fallback id back into its clock reading and its random part. */
  function ParseFallback(id: string): Option<(nat, string)> {
    if |id| < |FallbackPrefix| || id[..|FallbackPrefix|] != FallbackPrefix then None
    else
      var rest := id[|FallbackPrefix|..];
      var d := LeadingDigits(rest);
      if d == [] || |d| == |rest| || rest[|d|] != '-' then None
      else Some((DigitsValue(d), rest[|d| + 1..]))
  }

  /** The digit run of digits followed by a dash is exactly those digits. */
  lemma {:induction false} LeadingDigitsBeforeDash(d: string, r: string)
    requires AllDigits(d)
    decreases |d|
    ensures LeadingDigits(d + "-" + r) == d
  {
    if d != [] {
      assert (d + "-" + r)[0] == d[0];
      assert (d + "-" + r)[1..] == d[1..] + "-" + r;
      LeadingDigitsBeforeDash(d[1..], r);
    } else {
      assert (d + "-" + r)[0] == '-';
    }
  }

  /** A fallback id records the clock reading and the random part it was made from. */
  lemma FallbackRoundTrip(now: nat, random: string)
    ensures ParseFallback(FallbackId(now, random)) == Some((now, random))
  {
    var id := FallbackId(now, random);
    var rest := id[|FallbackPrefix|..];
    assert rest == NatText(now) + "-" + random;
    LeadingDigitsBeforeDash(NatText(now), random);
    NatTextRoundTrip(now);
    assert rest[|NatText(now)| + 1..] == random;
  }

  /** Fallback ids made at different times, or with different random parts, differ. */
  lemma FallbackIdsDistinct(now1: nat, random1: string, now2: nat, random2: string)
    requires now1 != now2 || random1 != random2
    ensures FallbackId(now1, random1) != FallbackId(now2, random2)
  {
    FallbackRoundTrip(now1, random1);
    FallbackRoundTrip(now2, random2);
  }

  /** A second call on the node returns the id of the first, whatever the clock and random parts. */
  lemma NodeIdIdempotent(testid: Option<string>, now: nat, random: string, now2: nat, random2: string)
    ensures NodeId(Some(NodeId(testid, now, random)), now2, random2) == NodeId(testid, now, random)
  {
  }

  /** `getNodeId`: returns the node's id, writing a fallback id onto a node without one. */
  method GetNodeId(node: Element, now: nat, random: string) returns (id: string)
    modifies node`testid
    ensures id == NodeId(old(node.testid), now, random)
    ensures node.testid == Some(id)
    ensures HasId(old(node.testid)) ==> node.testid == old(node.testid)
  {
    if node.testid.Some? && node.testid.value != "" {
      return node.testid.value;
    }
    id := FallbackPrefix + NatText(now) + "-" + random;
    node.testid := Some(id);
  }
}

/**
 * Resume persistence: which torrents get a resume-save request, the file a
 * resume blob is written to, and the magnet link rebuilt from a resume record
 * at startup (the magnet-link format of BEP 9).
 */
module Resume {
  import opened Wrappers
  import Hex

  /** What the snapshot trigger reads from one torrent handle. */
  datatype HandleState = HandleState(valid: bool, hasMetadata: bool, needSaveResume: bool)

  /** A resume save is requested for a valid handle with metadata that needs one. */
  predicate NeedsResumeSave(h: HandleState) {
    h.valid && h.hasMetadata && h.needSaveResume
  }

  /**
   * One tick of the snapshot trigger: the indices of the handles that get a
   * resume-save request, in order.
   */
  method SaveRequests(handles: seq<HandleState>) returns (requested: seq<nat>)
    ensures forall k :: 0 <= k < |requested| ==>
      requested[k] < |handles| && NeedsResumeSave(handles[requested[k]])
    ensures forall i :: 0 <= i < |handles| && NeedsResumeSave(handles[i]) ==> i in requested
    ensures forall k, l :: 0 <= k < l < |requested| ==> requested[k] < requested[l]
  {
    requested := [];
    for i := 0 to |handles|
      invariant forall k :: 0 <= k < |requested| ==>
        requested[k] < i && NeedsResumeSave(handles[requested[k]])
      invariant forall j :: 0 <= j < i && NeedsResumeSave(handles[j]) ==> j in requested
      invariant forall k, l :: 0 <= k < l < |requested| ==> requested[k] < requested[l]
    {
      var h := handles[i];
      if !h.valid {
        continue;
      }
      if !h.hasMetadata || !h.needSaveResume {
        continue;
      }
      requested := requested + [i];
    }
  }

  const ResumeSuffix := ".fastresume"

  /** The file a torrent's resume blob is written to: its lower-case hex info-hash plus ".fastresume". */
  function ResumeFileName(infoHash: seq<Hex.Byte>): (name: string)
    ensures |name| == 2 * |infoHash| + |ResumeSuffix|
    ensures forall i :: 0 <= i < 2 * |infoHash| ==> Hex.IsLowerHex(name[i])
    ensures name[2 * |infoHash|..] == ResumeSuffix
  {
    Hex.Encode(infoHash) + ResumeSuffix
  }

  /** The info-hash a resume file name stands for, if it is one. */
  function InfoHashOfFileName(name: string): Option<seq<Hex.Byte>> {
    if |name| >= |ResumeSuffix| && name[|name| - |ResumeSuffix|..] == ResumeSuffix
    then Hex.Decode(name[..|name| - |ResumeSuffix|])
    else None
  }

  /** Every resume file name names the info-hash it was written for. */
  lemma FileNameRoundTrip(infoHash: seq<Hex.Byte>)
    ensures InfoHashOfFileName(ResumeFileName(infoHash)) == Some(infoHash)
  {
    var name := ResumeFileName(infoHash);
    assert name[..|name| - |ResumeSuffix|] == Hex.Encode(infoHash);
    assert name[|name| - |ResumeSuffix|..] == ResumeSuffix;
    Hex.DecodeEncode(infoHash);
  }

  /** The tier-grouped tracker lists of a resume record, concatenated in order. */
  function Flattened(tiers: seq<seq<string>>): seq<string> {
    if tiers == [] then [] else tiers[0] + Flattened(tiers[1..])
  }

  lemma {:induction false} FlattenedSnoc(tiers: seq<seq<string>>, tier: seq<string>)
    ensures Flattened(tiers + [tier]) == Flattened(tiers) + tier
  {
    if tiers != [] {
      FlattenedSnoc(tiers[1..], tier);
      assert (tiers + [tier])[1..] == tiers[1..] + [tier];
    } else {
      assert Flattened([tier]) == tier + Flattened([]);
    }
  }

  /** The nested loop that collects the trackers of every tier into one list. */
  method FlattenTrackers(tiers: seq<seq<string>>) returns (trackers: seq<string>)
    ensures trackers == Flattened(tiers)
  {
    trackers := [];
    for i := 0 to |tiers|
      invariant trackers == Flattened(tiers[..i])
    {
      var tier := tiers[i];
      for j := 0 to |tier|
        invariant trackers == Flattened(tiers[..i]) + tier[..j]
      {
        trackers := trackers + [tier[j]];
      }
      FlattenedSnoc(tiers[..i], tier);
      assert tiers[..i + 1] == tiers[..i] + [tier];
    }
    assert tiers[..|tiers|] == tiers;
  }

  /** The number of trackers in each tier. */
  function TierSizes(tiers: seq<seq<string>>): (r: seq<nat>)
    ensures |r| == |tiers|
  {
    seq(|tiers|, i requires 0 <= i < |tiers| => |tiers[i]|)
  }

  function Total(sizes: seq<nat>): nat {
    if sizes == [] then 0 else sizes[0] + Total(sizes[1..])
  }

  /** Cuts a flat list back into consecutive groups of the given sizes. */
  function Regroup(list: seq<string>, sizes: seq<nat>): seq<seq<string>>
    requires Total(sizes) == |list|
  {
    if sizes == [] then []
    else [list[..sizes[0]]] + Regroup(list[sizes[0]..], sizes[1..])
  }

  /**
   * Flattening loses nothing and reorders nothing: every tracker of every tier
   * appears exactly once, tier after tier, so cutting the flat list by the
   * tier sizes gives the tiers back.
   */
  lemma {:induction false} RegroupFlattened(tiers: seq<seq<string>>)
    ensures Total(TierSizes(tiers)) == |Flattened(tiers)|
    ensures Regroup(Flattened(tiers), TierSizes(tiers)) == tiers
  {
    if tiers != [] {
      RegroupFlattened(tiers[1..]);
      assert TierSizes(tiers)[1..] == TierSizes(tiers[1..]);
      var flat := Flattened(tiers);
      assert flat[..|tiers[0]|] == tiers[0];
      assert flat[|tiers[0]|..] == Flattened(tiers[1..]);
      assert [tiers[0]] + tiers[1..] == tiers;
    }
  }

  /** How often each tracker occurs across all tiers. */
  function TierBag(tiers: seq<seq<string>>): multiset<string> {
    if tiers == [] then multiset{} else multiset(tiers[0]) + TierBag(tiers[1..])
  }

  /** Each tracker occurs in the flat list exactly as often as in the tiers together. */
  lemma {:induction false} FlattenedKeepsEveryTracker(tiers: seq<seq<string>>)
    ensures multiset(Flattened(tiers)) == TierBag(tiers)
  {
    if tiers != [] {
      FlattenedKeepsEveryTracker(tiers[1..]);
      assert Flattened(tiers) == tiers[0] + Flattened(tiers[1..]);
    }
  }

  const MagnetPrefix := "magnet:?xt=urn:btih:"

  /**
   * The query string of a value list under the key "tr": each value as
   * "tr=" plus its escaped form, separated by '&'. The escaping itself is the
   * URL library's and is a parameter here.
   */
  function TrackerQuery(trackers: seq<string>, escape: string -> string): string {
    if trackers == [] then ""
    else if |trackers| == 1 then "tr=" + escape(trackers[0])
    else "tr=" + escape(trackers[0]) + "&" + TrackerQuery(trackers[1..], escape)
  }

  /** The magnet link rebuilt from a resume record: prefix, hex info-hash, '&', tracker query. */
  function MagnetUri(infoHash: seq<Hex.Byte>, tiers: seq<seq<string>>, escape: string -> string): (uri: string)
    ensures |uri| > |MagnetPrefix| + 2 * |infoHash|
    ensures uri[..|MagnetPrefix|] == MagnetPrefix
    ensures uri[|MagnetPrefix|..|MagnetPrefix| + 2 * |infoHash|] == Hex.Encode(infoHash)
    ensures uri[|MagnetPrefix| + 2 * |infoHash|] == '&'
    ensures uri[|MagnetPrefix| + 2 * |infoHash| + 1..] == TrackerQuery(Flattened(tiers), escape)
  {
    var query := TrackerQuery(Flattened(tiers), escape);
    var uri := MagnetPrefix + Hex.Encode(infoHash) + "&" + query;
    assert uri[|MagnetPrefix|..|MagnetPrefix| + 2 * |infoHash|] == Hex.Encode(infoHash);
    assert uri[|MagnetPrefix| + 2 * |infoHash| + 1..] == query;
    uri
  }

  /** The fields of a query string: the pieces between its '&' separators, in order. */
  function Fields(s: string): (r: seq<string>)
    ensures |r| > 0
    decreases |s|
  {
    var head := UpToAmpersand(s);
    if |head| == |s| then [s] else [head] + Fields(s[|head| + 1..])
  }

  /** Each tracker as its own "tr=" field, in order. */
  function TrackerFields(trackers: seq<string>, escape: string -> string): (r: seq<string>)
    ensures |r| == |trackers|
  {
    seq(|trackers|, i requires 0 <= i < |trackers| => "tr=" + escape(trackers[i]))
  }

  lemma {:induction false} UpToAmpersandWhole(s: string)
    requires forall i :: 0 <= i < |s| ==> s[i] != '&'
    ensures UpToAmpersand(s) == s
  {
    if s != [] {
      UpToAmpersandWhole(s[1..]);
    }
  }

  /**
   * When escaping never yields '&' (URL query escaping writes it as %26),
   * the tracker query splits at '&' into one "tr=" field per tracker, in
   * order: the magnet link carries every tracker of every tier.
   */
  lemma {:induction false} TrackerQueryFields(trackers: seq<string>, escape: string -> string)
    requires trackers != []
    requires forall i, j :: 0 <= i < |trackers| && 0 <= j < |escape(trackers[i])| ==> escape(trackers[i])[j] != '&'
    ensures Fields(TrackerQuery(trackers, escape)) == TrackerFields(trackers, escape)
  {
    var field := "tr=" + escape(trackers[0]);
    assert forall j :: 0 <= j < |field| ==> field[j] != '&' by {
      forall j | 0 <= j < |field| ensures field[j] != '&' {
        if j >= 3 {
          assert field[j] == escape(trackers[0])[j - 3];
        }
      }
    }
    if |trackers| == 1 {
      UpToAmpersandWhole(field);
    } else {
      var rest := TrackerQuery(trackers[1..], escape);
      var query := TrackerQuery(trackers, escape);
      assert query == field + "&" + rest;
      UpToAmpersandPrefix(field, rest);
      assert query[|field| + 1..] == rest;
      TrackerQueryFields(trackers[1..], escape);
      assert TrackerFields(trackers, escape) == [field] + TrackerFields(trackers[1..], escape);
    }
  }

  /** The characters before the first '&' (all of them if there is none). */
  function UpToAmpersand(s: string): (r: string)
    ensures |r| <= |s|
  {
    if s == [] || s[0] == '&' then [] else [s[0]] + UpToAmpersand(s[1..])
  }

  lemma {:induction false} UpToAmpersandPrefix(s: string, rest: string)
    requires forall i :: 0 <= i < |s| ==> s[i] != '&'
    ensures UpToAmpersand(s + "&" + rest) == s
  {
    if s != [] {
      UpToAmpersandPrefix(s[1..], rest);
      assert (s + "&" + rest)[1..] == s[1..] + "&" + rest;
    } else {
      assert (s + "&" + rest)[0] == '&';
    }
  }

  /** The info-hash named by the exact-topic field of a magnet link, if it is one of ours. */
  function InfoHashOfMagnet(uri: string): Option<seq<Hex.Byte>> {
    if |uri| >= |MagnetPrefix| && uri[..|MagnetPrefix|] == MagnetPrefix
    then Hex.Decode(UpToAmpersand(uri[|MagnetPrefix|..]))
    else None
  }

  /**
   * A resume record written for info-hash H and reloaded at startup yields a
   * magnet link whose exact topic is H again, and H is the hash the record's
   * file is named by.
   */
  lemma ReloadedMagnetNamesInfoHash(infoHash: seq<Hex.Byte>, tiers: seq<seq<string>>, escape: string -> string)
    ensures InfoHashOfMagnet(MagnetUri(infoHash, tiers, escape)) == Some(infoHash)
    ensures InfoHashOfMagnet(MagnetUri(infoHash, tiers, escape))
      == InfoHashOfFileName(ResumeFileName(infoHash))
  {
    var hex := Hex.Encode(infoHash);
    var query := TrackerQuery(Flattened(tiers), escape);
    var uri := MagnetUri(infoHash, tiers, escape);
    assert uri[|MagnetPrefix|..] == hex + "&" + query;
    UpToAmpersandPrefix(hex, query);
    Hex.DecodeEncode(infoHash);
    FileNameRoundTrip(infoHash);
  }
}

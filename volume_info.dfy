/**
 * What the tool learns about the root volume from `diskutil info -plist /`,
 * once the property list has been parsed: the device identifier of the volume
 * (normalised to its container by a character-counting heuristic) and whether
 * the volume is an APFS snapshot.
 */
module VolumeInfo {
  import opened Wrappers
  import opened Text

  /** A value of the parsed property list; arrays, dictionaries, data, dates and reals are `POther`. */
  datatype PlistValue = PString(s: string) | PBool(b: bool) | PInteger(i: int) | POther

  /** The top-level dictionary `plistlib.loads` returns. */
  type PlistDict = map<string, PlistValue>

  /** The exceptions that can escape the probes. */
  datatype PyError =
    | PlistParseError     // plistlib could not parse the output of diskutil
    | KeyError(key: string)
    | NotAString(key: string)  // the value under `key` is not a string (see RootVolume)

  const DeviceIdentifierKey: string := "DeviceIdentifier"
  const SnapshotKey: string := "APFSSnapshot"

  /**
   * The normalisation in `get_root_vol`: when the identifier contains more than one
   * 's' (the 's' of "disk" included) its last two characters are dropped, otherwise
   * it is kept. The result is a prefix of the identifier, exactly two characters
   * shorter in the first case and equal to it in the second.
   */
  function Normalise(id: string): (r: string)
    ensures r <= id
    ensures |r| == |id| - 2 <==> Count(id, 's') > 1
    ensures r == id <==> Count(id, 's') <= 1
  {
    if Count(id, 's') > 1 then id[..|id| - 2] else id
  }

  /**
   * An identifier with an 's' before its last two characters "s" and `d` loses exactly
   * those two: "disk3s1s1" becomes "disk3s1", and so does the one-slice "disk3s1"
   * become "disk3", because the 's' of "disk" is counted.
   */
  lemma DropsLastSlice(base: string, d: char)
    requires 's' in base
    ensures Normalise(base + ['s', d]) == base
  {
    CountIsMultiplicity(base, 's');
    CountAppend(base, ['s', d], 's');
    assert (base + ['s', d])[..|base|] == base;
  }

  /**
   * An identifier with at most one 's' is returned unchanged, whatever follows it;
   * "disk3" is one.
   */
  lemma KeepsSingleS(id: string)
    requires multiset(id)['s'] <= 1
    ensures Normalise(id) == id
  {
    CountIsMultiplicity(id, 's');
  }

  /** The identifiers the normalisation is meant for, and a two-digit slice number it cuts wrongly. */
  lemma NormaliseExamples()
    ensures Normalise("disk3s1s1") == "disk3s1"
    ensures Normalise("disk3s1") == "disk3"
    ensures Normalise("disk3") == "disk3"
    ensures Normalise("disk3s1s10") == "disk3s1s"
  {
  }

  /**
   * `get_root_vol` after parsing: the normalised `DeviceIdentifier`. A missing key
   * raises `KeyError`, which nothing catches. Any value that is not a string is
   * taken to raise here; for most types `count("s")` does raise, but a list passes
   * `get_root_vol` and raises only at the later `startswith`.
   */
  function RootVolume(info: PlistDict): (r: Result<string, PyError>)
    ensures DeviceIdentifierKey !in info ==> r == Failure(KeyError(DeviceIdentifierKey))
    ensures r.Success? <==> DeviceIdentifierKey in info && info[DeviceIdentifierKey].PString?
    ensures r.Success? ==> r.value == Normalise(info[DeviceIdentifierKey].s)
  {
    if DeviceIdentifierKey !in info then Failure(KeyError(DeviceIdentifierKey))
    else match info[DeviceIdentifierKey]
      case PString(id) => Success(Normalise(id))
      case _ => Failure(NotAString(DeviceIdentifierKey))
  }

  /**
   * `check_if_root_is_apfs_snapshot` after parsing: the `APFSSnapshot` value, whatever
   * its type, or `False` when the key is absent (the `KeyError` is caught).
   */
  function SnapshotFlag(info: PlistDict): (v: PlistValue)
    ensures SnapshotKey in info ==> v == info[SnapshotKey]
    ensures SnapshotKey !in info ==> v == PBool(false)
  {
    if SnapshotKey in info then info[SnapshotKey] else PBool(false)
  }

  /** Python `v is True`: only the boolean `True` itself, not `1` or a non-empty string. */
  predicate IsTrue(v: PlistValue)
    ensures IsTrue(v) <==> v.PBool? && v.b
    ensures IsTrue(v) ==> v != PInteger(1) && v != PString("True")
  {
    v == PBool(true)
  }

  /** The flag is `True` exactly when the key is present and holds the boolean `True`. */
  lemma SnapshotFlagTrue(info: PlistDict)
    ensures IsTrue(SnapshotFlag(info)) <==> SnapshotKey in info && info[SnapshotKey] == PBool(true)
  {
  }
}

/**
 * Conversion of an ordered list of parent layer paths into the layer
 * descriptors that the Windows container storage API takes
 * (internal/wclayer/layerutils.go).
 */
module LayerUtils {
  import opened Wrappers
  import WindowsPath

  newtype uint16 = x: int | 0 <= x < 0x1_0000

  /** A layer identifier; `NameToGuid` computes it outside this model. */
  datatype Guid = Guid(data1: bv32, data2: bv16, data3: bv16, data4: seq<bv8>)

  datatype Error =
    | NameToGuidFailed(message: string)  // the error NameToGuid returned, passed on unchanged
    | InvalidArgument                    // syscall.EINVAL: the path holds a NUL character

  /** WC_LAYER_DESCRIPTOR: the layer id, the flags word and the NUL-terminated UTF-16 path. */
  datatype LayerDescriptor = LayerDescriptor(layerId: Guid, flags: bv32, path: seq<uint16>)

  // ---------------------------------------------------------------------
  // UTF-16, section 2.1 of RFC 2781

  const HighSurrogateBase := 0xD800
  const LowSurrogateBase := 0xDC00
  const SurrogateEnd := 0xE000

  /** The UTF-16 code units of one Unicode scalar value. */
  function EncodeChar(c: char): (u: seq<uint16>)
    ensures 1 <= |u| <= 2
  {
    var v := c as int;
    if v < 0x1_0000 then [v as uint16]
    else
      var w := v - 0x1_0000;
      [(HighSurrogateBase + w / 0x400) as uint16, (LowSurrogateBase + w % 0x400) as uint16]
  }

  function Utf16Encode(s: string): seq<uint16>
  {
    if s == [] then [] else EncodeChar(s[0]) + Utf16Encode(s[1..])
  }

  /** Decoding of UTF-16 code units; None for an unpaired surrogate. */
  function Utf16Decode(u: seq<uint16>): Option<string>
    decreases |u|
  {
    if u == [] then Some([])
    else
      var x := u[0] as int;
      if HighSurrogateBase <= x < LowSurrogateBase then
        if |u| >= 2 && LowSurrogateBase <= u[1] as int < SurrogateEnd then
          var v := 0x1_0000 + (x - HighSurrogateBase) * 0x400 + (u[1] as int - LowSurrogateBase);
          match Utf16Decode(u[2..])
          case Some(rest) => Some([v as char] + rest)
          case None => None
        else None
      else if LowSurrogateBase <= x < SurrogateEnd then None
      else
        match Utf16Decode(u[1..])
        case Some(rest) => Some([x as char] + rest)
        case None => None
  }

  lemma DecodeEncodeChar(c: char, rest: seq<uint16>)
    ensures Utf16Decode(EncodeChar(c) + rest) ==
            match Utf16Decode(rest) case Some(r) => Some([c] + r) case None => None
  {
    var u := EncodeChar(c) + rest;
    var v := c as int;
    if v < 0x1_0000 {
      assert u[1..] == rest;
    } else {
      var w := v - 0x1_0000;
      assert 0x1_0000 + (w / 0x400) * 0x400 + w % 0x400 == v;
      assert u[2..] == rest;
    }
  }

  /** Decoding undoes encoding. */
  lemma {:induction false} DecodeEncode(s: string)
    ensures Utf16Decode(Utf16Encode(s)) == Some(s)
    decreases |s|
  {
    if s != [] {
      DecodeEncode(s[1..]);
      DecodeEncodeChar(s[0], Utf16Encode(s[1..]));
      assert [s[0]] + s[1..] == s;
    }
  }

  /** A zero code unit appears in the encoding exactly where a NUL character is. */
  lemma {:induction false} EncodeHasZeroIffNul(s: string)
    ensures (0 as uint16 in Utf16Encode(s)) <==> '\0' in s
    decreases |s|
  {
    if s != [] {
      EncodeHasZeroIffNul(s[1..]);
      assert s == [s[0]] + s[1..];
      assert (0 as uint16 in EncodeChar(s[0])) <==> s[0] == '\0';
    }
  }

  /**
   * syscall.UTF16FromString: fails with EINVAL when the string holds a NUL;
   * otherwise the UTF-16 encoding followed by one terminating zero unit.
   */
  function Utf16FromString(s: string): (r: Result<seq<uint16>, Error>)
    ensures r.Err? <==> '\0' in s
    ensures r.Err? ==> r.error == InvalidArgument
    ensures r.Ok? ==> |r.value| >= 1 && r.value[|r.value| - 1] == 0
    ensures r.Ok? ==> Utf16Decode(r.value[..|r.value| - 1]) == Some(s)
    ensures r.Ok? ==> 0 as uint16 !in r.value[..|r.value| - 1]
  {
    if '\0' in s then Err(InvalidArgument)
    else
      var u := Utf16Encode(s) + [0];
      assert u[..|u| - 1] == Utf16Encode(s);
      DecodeEncode(s);
      EncodeHasZeroIffNul(s);
      Ok(u)
  }

  // ---------------------------------------------------------------------
  // layerPathsToDescriptors

  /** The final element of a layer path, the name its GUID is derived from. */
  function FolderName(path: string): string
  {
    WindowsPath.Split(path).1
  }

  /**
   * One iteration of the loop: the descriptor for `path`, or the first of
   * the two conversion errors (the GUID first, then the UTF-16 path).
   */
  function Descriptor(path: string, nameToGuid: string -> Result<Guid, string>): (r: Result<LayerDescriptor, Error>)
    ensures nameToGuid(FolderName(path)).Err? ==>
              r == Err(NameToGuidFailed(nameToGuid(FolderName(path)).error))
    ensures nameToGuid(FolderName(path)).Ok? && '\0' in path ==> r == Err(InvalidArgument)
    ensures r.Ok? <==> nameToGuid(FolderName(path)).Ok? && '\0' !in path
    ensures r.Ok? ==> r.value.layerId == nameToGuid(FolderName(path)).value
    ensures r.Ok? ==> r.value.flags == 0
    ensures r.Ok? ==> var u := r.value.path;
                        |u| >= 1 && u[|u| - 1] == 0 && Utf16Decode(u[..|u| - 1]) == Some(path)
  {
    match nameToGuid(FolderName(path))
    case Err(e) => Err(NameToGuidFailed(e))
    case Ok(g) =>
      match Utf16FromString(path)
      case Err(e) => Err(e)
      case Ok(p) => Ok(LayerDescriptor(g, 0, p))
  }

  /**
   * layerPathsToDescriptors: one descriptor per path, in order, or the error
   * of the first path that fails to convert and no descriptors at all.
   */
  method LayerPathsToDescriptors(parentLayerPaths: seq<string>, nameToGuid: string -> Result<Guid, string>)
    returns (r: Result<seq<LayerDescriptor>, Error>)
    ensures r.Ok? <==> forall i :: 0 <= i < |parentLayerPaths| ==> Descriptor(parentLayerPaths[i], nameToGuid).Ok?
    ensures r.Ok? ==> |r.value| == |parentLayerPaths|
    ensures r.Ok? ==> forall i :: 0 <= i < |parentLayerPaths| ==> Descriptor(parentLayerPaths[i], nameToGuid) == Ok(r.value[i])
    ensures r.Err? ==> exists k :: 0 <= k < |parentLayerPaths| &&
                                   (forall j :: 0 <= j < k ==> Descriptor(parentLayerPaths[j], nameToGuid).Ok?) &&
                                   Descriptor(parentLayerPaths[k], nameToGuid) == Err(r.error)
  {
    var layers: seq<LayerDescriptor> := [];
    for i := 0 to |parentLayerPaths|
      invariant |layers| == i
      invariant forall j :: 0 <= j < i ==> Descriptor(parentLayerPaths[j], nameToGuid) == Ok(layers[j])
    {
      var folderName := FolderName(parentLayerPaths[i]);
      var g := nameToGuid(folderName);
      if g.Err? {
        return Err(NameToGuidFailed(g.error));
      }
      var p := Utf16FromString(parentLayerPaths[i]);
      if p.Err? {
        return Err(p.error);
      }
      layers := layers + [LayerDescriptor(g.value, 0, p.value)];
    }
    return Ok(layers);
  }
}

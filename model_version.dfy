/** The catalog of model versions: file names per role and download locators. */
module ModelVersion {
  import opened Wrappers
  import opened PathText

  /** The classifier model every version uses. */
  const SharedClsModelName: string := "ch_ppocr_mobile_v2.0_cls_infer.onnx"

  /** A catalog file name is relative and never blank: its first character is neither `/` nor whitespace. */
  predicate IsBareFileName(n: string) {
    |n| > 0 && n[0] != '/' && !IsWs(n[0])
  }

  /** The download locator of V5's own dictionary. */
  const V5KeysUrl: string := "https://www.modelscope.cn/models/RapidAI/RapidOCR/resolve/v3.4.0/paddle/PP-OCRv5/rec/ch_PP-OCRv5_rec_mobile_infer/ppocrv5_dict.txt"

  datatype OcrModelVersion = V3 | V4 | V5 {

    /** The enum constant's own name, which `FromName` matches; two characters, as `FromName`'s search relies on. */
    function Name(): (n: string)
      ensures |n| == 2
    {
      match this
      case V3 => "V3"
      case V4 => "V4"
      case V5 => "V5"
    }

    /** The display name: "PP-OCRv" followed by the version number that the enum name carries. */
    function VersionName(): (n: string)
      ensures n == "PP-OCRv" + Name()[1..]
    {
      match this
      case V3 => "PP-OCRv3"
      case V4 => "PP-OCRv4"
      case V5 => "PP-OCRv5"
    }

    function DetModelName(): (n: string)
      ensures IsBareFileName(n)
    {
      match this
      case V3 => "ch_PP-OCRv3_det_infer.onnx"
      case V4 => "ch_PP-OCRv4_det_infer.onnx"
      case V5 => "ch_PP-OCRv5_mobile_det.onnx"
    }

    function RecModelName(): (n: string)
      ensures IsBareFileName(n)
    {
      match this
      case V3 => "ch_PP-OCRv3_rec_infer.onnx"
      case V4 => "ch_PP-OCRv4_rec_infer.onnx"
      case V5 => "ch_PP-OCRv5_rec_mobile_infer.onnx"
    }

    function ClsModelName(): (n: string)
      ensures IsBareFileName(n)
    {
      SharedClsModelName
    }

    function KeysName(): (n: string)
      ensures IsBareFileName(n)
    {
      match this
      case V3 => "ppocr_keys_v1.txt"
      case V4 => "ppocr_keys_v1.txt"
      case V5 => "ppocrv5_dict.txt"
    }

    /** The detector's download locator: empty for V3, whose models ship in the bundled assets. */
    function DetUrl(): string {
      match this
      case V3 => ""
      case V4 => "https://www.modelscope.cn/models/RapidAI/RapidOCR/resolve/v3.4.0/onnx/PP-OCRv4/det/ch_PP-OCRv4_det_infer.onnx"
      case V5 => "https://www.modelscope.cn/models/RapidAI/RapidOCR/resolve/v3.4.0/onnx/PP-OCRv5/det/ch_PP-OCRv5_mobile_det.onnx"
    }

    /** The recognizer's download locator: empty for V3. */
    function RecUrl(): string {
      match this
      case V3 => ""
      case V4 => "https://www.modelscope.cn/models/RapidAI/RapidOCR/resolve/v3.4.0/onnx/PP-OCRv4/rec/ch_PP-OCRv4_rec_infer.onnx"
      case V5 => "https://www.modelscope.cn/models/RapidAI/RapidOCR/resolve/v3.4.0/onnx/PP-OCRv5/rec/ch_PP-OCRv5_rec_mobile_infer.onnx"
    }

    /** The constructor's default `null`, except for V5's own dictionary: V4 reuses V3's dictionary file. */
    function KeysUrl(): (u: Option<string>)
      ensures u.Some? <==> this == V5
    {
      match this
      case V5 => Some(V5KeysUrl)
      case _ => None
    }
  }

  /** `values()`, in declaration order. */
  const Values: seq<OcrModelVersion> := [V3, V4, V5]

  /** `find { it.name == name }`: the first entry of `vs` with that name. */
  function Find(vs: seq<OcrModelVersion>, name: string): (r: Option<OcrModelVersion>)
    ensures r.Some? ==> r.value in vs && r.value.Name() == name
    ensures r.None? <==> forall i :: 0 <= i < |vs| ==> vs[i].Name() != name
    ensures r.Some? ==> exists k :: 0 <= k < |vs| && vs[k] == r.value && forall j :: 0 <= j < k ==> vs[j].Name() != name
  {
    if vs == [] then None
    else if vs[0].Name() == name then Some(vs[0])
    else
      var rest := Find(vs[1..], name);
      if rest.Some? then
        ghost var k :| 0 <= k < |vs[1..]| && vs[1..][k] == rest.value && forall j :: 0 <= j < k ==> vs[1..][j].Name() != name;
        assert vs[k + 1] == rest.value;
        rest
      else rest
  }

  /**
   * `fromName`: total. The entry whose enum name is `name`, and `V3` when no
   * entry has that name.
   */
  function FromName(name: string): (v: OcrModelVersion)
    ensures forall u: OcrModelVersion :: u.Name() == name ==> v == u
    ensures (forall u: OcrModelVersion :: u.Name() != name) ==> v == V3
  {
    assert Values[0] == V3 && Values[1] == V4 && Values[2] == V5;
    Find(Values, name).GetOr(V3)
  }

  /** The enum names are pairwise distinct. */
  lemma NamesDistinct(u: OcrModelVersion, w: OcrModelVersion)
    ensures u.Name() == w.Name() <==> u == w
  {
  }

  /** Round trip: looking a version up by its own name gives it back. */
  lemma FromNameRoundTrip(v: OcrModelVersion)
    ensures FromName(v.Name()) == v
  {
  }

  /** The stored preference defaults to "V3", which names V3 itself. */
  lemma PreferenceDefaultNamesV3()
    ensures FromName("V3") == V3
  {
  }

  /** Every version uses the same classifier file. */
  lemma ClassifierShared(v: OcrModelVersion)
    ensures v.ClsModelName() == "ch_ppocr_mobile_v2.0_cls_infer.onnx"
  {
  }

  /** V3 ships in the bundled assets: it has nothing to download. */
  lemma V3IsBundled()
    ensures V3.DetUrl() == "" && V3.RecUrl() == "" && V3.KeysUrl().None?
  {
  }

  /** V4 reuses V3's dictionary file. */
  lemma V4SharesV3Dictionary()
    ensures V4.KeysName() == V3.KeysName()
  {
  }
}

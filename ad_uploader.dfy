/**
 * The ad upload widget (hackuta-frontend/src/components/AdUploader.tsx): a filter on file type
 * and size, and for each accepted file an ad with demo metrics derived from a 32-bit string hash
 * of the file's name, size and creation time, added to the campaign store.
 */
module AdUploader {
  import opened Wrappers
  import opened Text
  import opened JsNumbers
  import opened CampaignContext

  // ----- demo metrics -----

  /** The seed hash: `h := int32(h * 31 + c)` from 0 over the UTF-16 code units. */
  function HashFold(units: seq<CodeUnit>): (h: int)
    ensures IsInt32(h)
    decreases |units|
  {
    if units == [] then 0 else ToInt32(31 * HashFold(units[..|units| - 1]) + units[|units| - 1])
  }

  /** One iteration of the hash loop: `(h << 5) - h + c`, then `h |= 0`. */
  function ShiftStep(h: int, c: CodeUnit): int {
    ToInt32(ToInt32(h * 32) - h + c)
  }

  /** The shift-and-subtract step is multiplication by 31 with 32-bit wrap-around. */
  lemma ShiftStepIsTimes31(h: int, c: CodeUnit)
    ensures ShiftStep(h, c) == ToInt32(31 * h + c)
  {
    var x := h * 32;
    var k := x / TwoTo32 + (if ToInt32(x) < 0 then 1 else 0);
    assert ToInt32(x) - h + c == 31 * h + c - k * TwoTo32;
    ToInt32Congruent(ToInt32(x) - h + c, 31 * h + c, -k);
  }

  /** `normalize(value, min, max)`: `((value % range) + range) % range + min` with JavaScript's `%`. */
  function Normalize(value: int, min: int, max: int): (r: int)
    requires min < max
    ensures r == min + value % (max - min)
    ensures min <= r < max
  {
    var range := max - min;
    var a := Rem(value, range) + range;
    if value >= 0 then
      DivModUnique(a, range, 1, value % range);
      Rem(a, range) + min
    else
      DivModUnique(a, range, if value % range == 0 then 1 else 0, value % range);
      Rem(a, range) + min
  }

  /** Rounding to a tenth leaves an integer unchanged. */
  lemma RoundToTenthOfInteger(n: int)
    ensures RoundToTenth(n as real) == n as real
  {
    assert n as real * 10.0 == (n * 10) as real;
    RoundInteger(n * 10);
  }

  /**
   * The metrics `generateDemoMetrics` derives from a hash; `>> k` on a 32-bit value is floor
   * division by 2^k. Each field is an integer in its range, so the rounding changes nothing.
   */
  function DemoMetrics(h: int): (m: Metrics)
    ensures m.quality == Some(Normalize(h, 6, 9) as real)
    ensures m.hostility == Some(Normalize(h / 8, 1, 4) as real)
    ensures m.engagement == Some(Normalize(h / 64, 25, 65) as real)
    ensures m.resonance == Some(Normalize(h / 4, 2, 6) as real)
    ensures 6.0 <= m.quality.value < 9.0 && 1.0 <= m.hostility.value < 4.0
    ensures 25.0 <= m.engagement.value < 65.0 && 2.0 <= m.resonance.value < 6.0
  {
    var q, hs, e, r := Normalize(h, 6, 9), Normalize(h / 8, 1, 4), Normalize(h / 64, 25, 65), Normalize(h / 4, 2, 6);
    RoundToTenthOfInteger(q);
    RoundToTenthOfInteger(hs);
    RoundInteger(e);
    RoundToTenthOfInteger(r);
    Metrics(Some(RoundToTenth(q as real)), Some(RoundToTenth(hs as real)), Some(RoundToUnit(e as real)), Some(RoundToTenth(r as real)))
  }

  /** `generateDemoMetrics(seed)`: hash the seed's code units, then derive the metrics. */
  method GenerateDemoMetrics(seed: string) returns (m: Metrics)
    ensures m == DemoMetrics(HashFold(Utf16(seed)))
  {
    var units := Utf16(seed);
    var hash := 0;
    var i := 0;
    while i < |units|
      invariant 0 <= i <= |units|
      invariant hash == HashFold(units[..i])
    {
      assert units[..i + 1][..i] == units[..i];
      ShiftStepIsTimes31(hash, units[i]);
      hash := ShiftStep(hash, units[i]);
      i := i + 1;
    }
    assert units[..i] == units;
    m := DemoMetrics(hash);
  }

  // ----- the upload filter -----

  /** A file handed to the widget: its name, MIME type and size in bytes. */
  datatype UploadFile = UploadFile(name: string, mimeType: string, size: nat)

  const AcceptedTypes: seq<string> := ["image/png", "image/jpeg", "image/webp"]
  const MaxSize: nat := 10 * 1024 * 1024
  const TypeMessage: string := "Unsupported file type. Please upload PNG, JPEG, or WEBP images."
  const SizeMessage: string := "Max 10MB per image. Please compress or choose a different file."

  /** The file passes the filter. */
  predicate Acceptable(f: UploadFile) {
    f.mimeType in AcceptedTypes && f.size <= MaxSize
  }

  /** The error the filter reports for a file, if any; the type is checked before the size. */
  function Rejection(f: UploadFile): (r: Option<string>)
    ensures r.None? <==> Acceptable(f)
    ensures r == Some(TypeMessage) <==> f.mimeType !in AcceptedTypes
    ensures r == Some(SizeMessage) <==> f.mimeType in AcceptedTypes && f.size > MaxSize
  {
    if f.mimeType !in AcceptedTypes then Some(TypeMessage)
    else if f.size > MaxSize then Some(SizeMessage)
    else None
  }

  /** The files that pass the filter, in input order. */
  function Accepted(files: seq<UploadFile>): (r: seq<UploadFile>)
    ensures |r| <= |files|
    decreases |files|
  {
    if files == [] then []
    else Accepted(files[..|files| - 1]) + (if Acceptable(files[|files| - 1]) then [files[|files| - 1]] else [])
  }

  /** The error shown after filtering: that of the last rejected file. */
  function LastRejection(files: seq<UploadFile>): Option<string>
    decreases |files|
  {
    if files == [] then None
    else if Rejection(files[|files| - 1]).Some? then Rejection(files[|files| - 1])
    else LastRejection(files[..|files| - 1])
  }

  /** A file is kept exactly when it is in the input and passes the filter. */
  lemma {:induction false} AcceptedMembers(files: seq<UploadFile>)
    ensures forall f :: f in Accepted(files) <==> f in files && Acceptable(f)
    decreases |files|
  {
    if files != [] {
      var init := files[..|files| - 1];
      AcceptedMembers(init);
      assert files == init + [files[|files| - 1]];
    }
  }

  /** `files[j]` is rejected and every later file passes. */
  predicate LastRejectedAt(files: seq<UploadFile>, j: int) {
    0 <= j < |files| && !Acceptable(files[j]) && forall k :: j < k < |files| ==> Acceptable(files[k])
  }

  /**
   * An error is shown exactly when some file is rejected, and it is the message of the last
   * rejected file.
   */
  lemma LastRejectionIsLast(files: seq<UploadFile>)
    ensures LastRejection(files).None? <==> forall i :: 0 <= i < |files| ==> Acceptable(files[i])
    ensures LastRejection(files).Some? ==>
      exists j :: LastRejectedAt(files, j) && LastRejection(files) == Rejection(files[j])
  {
    NoRejectionAllAccepted(files);
    LastRejectionWitness(files);
  }

  lemma {:induction false} NoRejectionAllAccepted(files: seq<UploadFile>)
    ensures LastRejection(files).None? <==> forall i :: 0 <= i < |files| ==> Acceptable(files[i])
    decreases |files|
  {
    if files != [] {
      var n := |files| - 1;
      var init := files[..n];
      NoRejectionAllAccepted(init);
      assert forall i :: 0 <= i < n ==> files[i] == init[i];
    }
  }

  lemma {:induction false} LastRejectionWitness(files: seq<UploadFile>)
    ensures LastRejection(files).Some? ==>
      exists j :: LastRejectedAt(files, j) && LastRejection(files) == Rejection(files[j])
    decreases |files|
  {
    if files != [] {
      var n := |files| - 1;
      var init := files[..n];
      if Rejection(files[n]).Some? {
        assert LastRejectedAt(files, n);
      } else if LastRejection(init).Some? {
        LastRejectionWitness(init);
        var j :| LastRejectedAt(init, j) && LastRejection(init) == Rejection(init[j]);
        assert files[j] == init[j];
        assert forall k :: j < k < n ==> files[k] == init[k];
        assert LastRejectedAt(files, j);
      }
    }
  }

  // ----- adding the accepted files -----

  /** What the browser supplies per accepted file: `randomUUID`, the ISO time, the object URL and the image size. */
  datatype Stamp = Stamp(id: string, createdAt: string, src: string, width: Option<int>, height: Option<int>)

  /** The seed string `${name}-${size}-${createdAt}`. */
  function SeedOf(f: UploadFile, createdAt: string): string {
    f.name + "-" + NatToString(f.size) + "-" + createdAt
  }

  /** The ad created for an accepted file. */
  function NewAd(campaignId: string, f: UploadFile, st: Stamp): Ad {
    Ad(st.id, campaignId, st.createdAt, st.src, Some(f.name), None, st.width, st.height,
      Some(DemoMetrics(HashFold(Utf16(SeedOf(f, st.createdAt))))))
  }

  /** The ads for the accepted files, the `i`th with the `i`th stamp. */
  function NewAds(campaignId: string, files: seq<UploadFile>, stamps: nat -> Stamp): (r: seq<Ad>)
    ensures |r| == |files|
    ensures forall i :: 0 <= i < |r| ==> r[i].campaignId == campaignId && r[i].fileName == Some(files[i].name)
  {
    var r := seq(|files|, i requires 0 <= i < |files| => NewAd(campaignId, files[i], stamps(i)));
    assert forall i :: 0 <= i < |r| ==> r[i] == NewAd(campaignId, files[i], stamps(i));
    r
  }

  lemma NewAdsSnoc(campaignId: string, files: seq<UploadFile>, i: nat, stamps: nat -> Stamp)
    requires i < |files|
    ensures NewAds(campaignId, files[..i + 1], stamps) ==
      NewAds(campaignId, files[..i], stamps) + [NewAd(campaignId, files[i], stamps(i))]
  {
  }

  /** The campaign list after `addAd(campaignId, ad)` for each ad in turn. */
  function AddAll(list: seq<Campaign>, campaignId: string, ads: seq<Ad>): seq<Campaign>
    decreases |ads|
  {
    if ads == [] then list
    else AfterAddAd(AddAll(list, campaignId, ads[..|ads| - 1]), campaignId, ads[|ads| - 1])
  }

  /** Adding a batch of ads keeps the store invariant. */
  lemma {:induction false} AddAllKeepsInvariant(list: seq<Campaign>, campaignId: string, ads: seq<Ad>)
    requires StoreInvariant(list)
    ensures StoreInvariant(AddAll(list, campaignId, ads))
    decreases |ads|
  {
    if ads != [] {
      AddAllKeepsInvariant(list, campaignId, ads[..|ads| - 1]);
      AddAdEffect(AddAll(list, campaignId, ads[..|ads| - 1]), campaignId, ads[|ads| - 1]);
    }
  }

  /** The widget for one campaign, with its error, progress and drag state. */
  class Uploader {
    const campaignId: string
    const store: CampaignStore
    var error: Option<string>
    var isUploading: bool
    var dragActive: bool

    constructor (campaignId: string, store: CampaignStore)
      ensures this.campaignId == campaignId && this.store == store
      ensures error.None? && !isUploading && !dragActive
    {
      this.campaignId := campaignId;
      this.store := store;
      error := None;
      isUploading := false;
      dragActive := false;
    }

    /**
     * `handleFiles`: nothing for a missing or empty list; otherwise filter, then one `addAd`
     * per accepted file in order, with the error of the last rejected file left showing.
     */
    method HandleFiles(files: Option<seq<UploadFile>>, stamps: nat -> Stamp) returns (added: seq<Ad>)
      modifies this, store
      ensures files.None? || files.value == [] ==>
        added == [] && store.campaigns == old(store.campaigns) &&
        error == old(error) && isUploading == old(isUploading) && dragActive == old(dragActive)
      ensures files.Some? && files.value != [] ==>
        added == NewAds(campaignId, Accepted(files.value), stamps) &&
        store.campaigns == AddAll(old(store.campaigns), campaignId, added) &&
        error == LastRejection(files.value) && !isUploading && !dragActive
      ensures old(StoreInvariant(store.campaigns)) ==> StoreInvariant(store.campaigns)
    {
      added := [];
      if files.None? || |files.value| == 0 {
        return;
      }
      error := None;
      isUploading := true;
      var valid := FilterFiles(files.value);
      LastRejectionIsLast(files.value);
      added := AddAccepted(valid, stamps);
      isUploading := false;
      dragActive := false;
    }

    /** The `filter` callback over the files: keeps the acceptable ones and reports each rejection. */
    method FilterFiles(fs: seq<UploadFile>) returns (valid: seq<UploadFile>)
      modifies this
      ensures valid == Accepted(fs)
      ensures error == (if LastRejection(fs).Some? then LastRejection(fs) else old(error))
      ensures isUploading == old(isUploading) && dragActive == old(dragActive)
    {
      valid := [];
      for i := 0 to |fs|
        invariant valid == Accepted(fs[..i])
        invariant error == (if LastRejection(fs[..i]).Some? then LastRejection(fs[..i]) else old(error))
        invariant isUploading == old(isUploading) && dragActive == old(dragActive)
      {
        assert fs[..i + 1][..i] == fs[..i];
        var f := fs[i];
        if f.mimeType !in AcceptedTypes {
          error := Some(TypeMessage);
        } else if f.size > MaxSize {
          error := Some(SizeMessage);
        } else {
          valid := valid + [f];
        }
      }
      assert fs[..|fs|] == fs;
    }

    /** The loop over the accepted files: one `addAd` each, in order. */
    method AddAccepted(valid: seq<UploadFile>, stamps: nat -> Stamp) returns (added: seq<Ad>)
      modifies store
      ensures added == NewAds(campaignId, valid, stamps)
      ensures store.campaigns == AddAll(old(store.campaigns), campaignId, added)
      ensures old(StoreInvariant(store.campaigns)) ==> StoreInvariant(store.campaigns)
    {
      added := [];
      for i := 0 to |valid|
        invariant added == NewAds(campaignId, valid[..i], stamps)
        invariant store.campaigns == AddAll(old(store.campaigns), campaignId, added)
        invariant old(StoreInvariant(store.campaigns)) ==> StoreInvariant(store.campaigns)
      {
        var st := stamps(i);
        var metrics := GenerateDemoMetrics(SeedOf(valid[i], st.createdAt));
        var ad := Ad(st.id, campaignId, st.createdAt, st.src, Some(valid[i].name), None, st.width, st.height, Some(metrics));
        assert ad == NewAd(campaignId, valid[i], stamps(i));
        store.AddAd(campaignId, ad);
        assert (added + [ad])[..|added|] == added;
        NewAdsSnoc(campaignId, valid, i, stamps);
        added := added + [ad];
      }
      assert valid[..|valid|] == valid;
    }
  }
}

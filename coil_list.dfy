/** The coil library screen: the hand-entered coil form, its defaults and
    its picture list. */
module CoilList {
  import opened Seqs
  import opened Types

  /** The form's draft; every field is always present because each edit
      copies the whole draft. */
  datatype CoilDraft = CoilDraft(
    name: string,
    material: WireMaterial,
    gauge: real,
    innerDiameter: real,
    wraps: real,
    coilType: CoilType,
    wireConfig: WireType,
    coilCount: CoilConfig,
    resistance: real,
    images: seq<string>)

  /** The draft the form starts with and returns to after an add. */
  const DefaultDraft: CoilDraft :=
    CoilDraft("", KanthalA1, 26.0, 2.5, 6.0, Contact, Round, Single, 0.8, [])

  /** `x || d` on a number: zero is falsy and takes the default. */
  function OrDefault(x: real, d: real): (r: real)
    ensures x != 0.0 ==> r == x
    ensures x == 0.0 ==> r == d
  {
    if x == 0.0 then d else x
  }

  /** The coil `handleAdd` hands over: an empty name would read "New
      Coil" (the guard in `HandleAdd` means it never does); zero gauge, wraps or inner
      diameter (an empty number field) take the defaults 26, 6 and 2.5;
      the resistance `|| 0` keeps its value; usage starts at zero and the
      build has not been simulated. */
  function NewCoil(draft: CoilDraft, stamp: string, now: int): (c: CoilStats)
    ensures c.id == "coil-" + stamp && c.createdAt == now
    ensures c.name == Some(if draft.name != "" then draft.name else "New Coil")
    ensures c.resistance == draft.resistance
    ensures c.gauge == Some(OrDefault(draft.gauge, 26.0)) && c.wraps == Some(OrDefault(draft.wraps, 6.0))
    ensures c.innerDiameter == Some(OrDefault(draft.innerDiameter, 2.5))
    ensures c.material == Some(draft.material) && c.coilType == Some(draft.coilType)
    ensures c.wireConfig == Some(draft.wireConfig) && c.coilCount == Some(draft.coilCount)
    ensures c.liquidConsumed == Some(0.0) && c.usageCount == Some(0) && c.images == draft.images
    ensures c.simulation == None && c.heatCapacity == None && c.surfaceArea == None
  {
    CoilStats("coil-" + stamp, Some(if draft.name != "" then draft.name else "New Coil"), Some(OrDefault(draft.gauge, 26.0)), draft.resistance,
              Some(draft.material), Some(OrDefault(draft.wraps, 6.0)), Some(OrDefault(draft.innerDiameter, 2.5)),
              Some(draft.coilType), Some(draft.wireConfig), Some(draft.coilCount), Some(0.0), Some(0),
              None, None, None, draft.images, now)
  }

  /** A hand-entered coil never records a zero gauge, wrap count or inner
      diameter, and the defaults leave non-zero entries alone. */
  lemma NewCoilGeometryNonZero(draft: CoilDraft, stamp: string, now: int)
    ensures var c := NewCoil(draft, stamp, now);
            c.gauge.value != 0.0 && c.wraps.value != 0.0 && c.innerDiameter.value != 0.0
    ensures draft.gauge != 0.0 && draft.wraps != 0.0 && draft.innerDiameter != 0.0 ==>
              var c := NewCoil(draft, stamp, now);
              c.gauge == Some(draft.gauge) && c.wraps == Some(draft.wraps)
              && c.innerDiameter == Some(draft.innerDiameter)
  {
  }

  /** The picture list after a series of uploads: the newest picture
      first (the one the preview shows), the uploads in reverse order,
      then the pictures that were there before, in their order. */
  function AfterUploads(images: seq<string>, uploads: seq<string>): (r: seq<string>)
    ensures |r| == |images| + |uploads|
    ensures r[|uploads|..] == images
    ensures forall k :: 0 <= k < |uploads| ==> r[k] == uploads[|uploads| - 1 - k]
  {
    if uploads == [] then images
    else
      var r := [uploads[|uploads| - 1]] + AfterUploads(images, uploads[..|uploads| - 1]);
      assert forall k :: 1 <= k < |r| ==> r[k] == AfterUploads(images, uploads[..|uploads| - 1])[k - 1];
      r
  }

  class CoilForm {
    var showAdd: bool
    var draft: CoilDraft

    constructor ()
      ensures !showAdd && draft == DefaultDraft
    {
      showAdd, draft := false, DefaultDraft;
    }

    method ToggleForm()
      modifies this`showAdd
      ensures showAdd == !old(showAdd)
    {
      showAdd := !showAdd;
    }

    /** A field edit replaces the draft. */
    method Edit(draft': CoilDraft)
      modifies this`draft
      ensures draft == draft'
    {
      draft := draft';
    }

    /** `handleImageUpload`: the loaded picture goes first and the earlier
        pictures keep their order behind it. */
    method AddImage(dataUrl: string)
      modifies this`draft
      ensures draft == old(draft).(images := [dataUrl] + old(draft).images)
      ensures draft.images == AfterUploads(old(draft).images, [dataUrl])
    {
      draft := draft.(images := [dataUrl] + draft.images);
    }

    /** `handleAdd`: an empty name adds nothing and changes nothing;
        otherwise the coil is produced, the form is hidden and the draft
        reset. */
    method HandleAdd(stamp: string, now: int) returns (added: Option<CoilStats>)
      modifies this`showAdd, this`draft
      ensures old(draft).name == "" ==> added == None && draft == old(draft) && showAdd == old(showAdd)
      ensures old(draft).name != "" ==>
                added == Some(NewCoil(old(draft), stamp, now)) && !showAdd && draft == DefaultDraft
    {
      if draft.name == "" {
        return None;
      }
      added := Some(NewCoil(draft, stamp, now));
      showAdd := false;
      draft := DefaultDraft;
    }
  }
}

/** The render-pass builder: attachments, subpasses grouped by begin/end,
    the pending colour references, and render-pass creation. */
module RenderPasses {

  import opened Vk

  // The Vulkan enumerant values the builder uses.
  const VK_SAMPLE_COUNT_1_BIT: nat := 1
  const VK_ATTACHMENT_LOAD_OP_CLEAR: nat := 1
  const VK_ATTACHMENT_LOAD_OP_DONT_CARE: nat := 2
  const VK_ATTACHMENT_STORE_OP_STORE: nat := 0
  const VK_ATTACHMENT_STORE_OP_DONT_CARE: nat := 1
  const VK_IMAGE_LAYOUT_UNDEFINED: nat := 0
  const VK_IMAGE_LAYOUT_COLOR_ATTACHMENT_OPTIMAL: nat := 2
  const VK_IMAGE_LAYOUT_PRESENT_SRC_KHR: nat := 1000001002
  const VK_PIPELINE_BIND_POINT_GRAPHICS: nat := 0

  /** VkAttachmentDescription. */
  datatype AttachmentDescription = AttachmentDescription(
    format: nat, samples: nat, loadOp: nat, storeOp: nat,
    stencilLoadOp: nat, stencilStoreOp: nat, initialLayout: nat, finalLayout: nat)

  /** VkAttachmentReference. */
  datatype AttachmentReference = AttachmentReference(attachment: U32, layout: nat)

  /** VkSubpassDescription: `colorAttachments` is where pColorAttachments
      points, an entry of the builder's reference store (None while the
      pointer is null). */
  datatype SubpassDescription = SubpassDescription(
    pipelineBindPoint: nat, colorAttachmentCount: nat, colorAttachments: Option<nat>)

  /** The colour attachment createColorAttachment describes: one sample,
      cleared on load and stored, from undefined to present-source layout. */
  function ColorAttachment(format: nat): (a: AttachmentDescription)
    ensures a.format == format && a.samples == VK_SAMPLE_COUNT_1_BIT
    ensures a.loadOp == VK_ATTACHMENT_LOAD_OP_CLEAR && a.storeOp == VK_ATTACHMENT_STORE_OP_STORE
    ensures a.stencilLoadOp == VK_ATTACHMENT_LOAD_OP_DONT_CARE && a.stencilStoreOp == VK_ATTACHMENT_STORE_OP_DONT_CARE
    ensures a.initialLayout == VK_IMAGE_LAYOUT_UNDEFINED && a.finalLayout == VK_IMAGE_LAYOUT_PRESENT_SRC_KHR
  {
    AttachmentDescription(format, VK_SAMPLE_COUNT_1_BIT, VK_ATTACHMENT_LOAD_OP_CLEAR, VK_ATTACHMENT_STORE_OP_STORE,
                          VK_ATTACHMENT_LOAD_OP_DONT_CARE, VK_ATTACHMENT_STORE_OP_DONT_CARE,
                          VK_IMAGE_LAYOUT_UNDEFINED, VK_IMAGE_LAYOUT_PRESENT_SRC_KHR)
  }

  /** Whether the subpass points at a stored reference list of exactly its
      colour-attachment count. */
  predicate Resolves(sp: SubpassDescription, store: seq<seq<AttachmentReference>>)
  {
    match sp.colorAttachments
    case None => sp.colorAttachmentCount == 0
    case Some(k) => k < |store| && |store[k]| == sp.colorAttachmentCount
  }

  /** The colour references a subpass reads through its pointer. */
  function ColorReferences(sp: SubpassDescription, store: seq<seq<AttachmentReference>>): (refs: seq<AttachmentReference>)
    requires Resolves(sp, store)
    ensures |refs| == sp.colorAttachmentCount
  {
    match sp.colorAttachments
    case None => []
    case Some(k) => store[k]
  }

  class RenderPassBuilder {
    var attachments: seq<AttachmentDescription>
    var subpasses: seq<SubpassDescription>
    /** store_: the list of reference vectors; entries never move. */
    var store: seq<seq<AttachmentReference>>
    /** colorAttachments_: the references added since the last end(). */
    var pending: seq<AttachmentReference>

    /** Every subpass's pointer resolves into the store. */
    ghost predicate Valid()
      reads this
    {
      forall i :: 0 <= i < |subpasses| ==> Resolves(subpasses[i], store)
    }

    constructor ()
      ensures Valid()
      ensures attachments == [] && subpasses == [] && store == [] && pending == []
    {
      attachments, subpasses, store, pending := [], [], [], [];
    }

    /** createColorAttachment(format) */
    method CreateColorAttachment(format: nat)
      modifies this
      ensures attachments == old(attachments) + [ColorAttachment(format)]
      ensures subpasses == old(subpasses) && store == old(store) && pending == old(pending)
    {
      attachments := attachments + [ColorAttachment(format)];
    }

    /** begin(bind = graphics): a new subpass with no colour attachments. */
    method Begin(bind: nat := VK_PIPELINE_BIND_POINT_GRAPHICS)
      requires Valid()
      modifies this
      ensures Valid()
      ensures subpasses == old(subpasses) + [SubpassDescription(bind, 0, None)]
      ensures attachments == old(attachments) && store == old(store) && pending == old(pending)
    {
      subpasses := subpasses + [SubpassDescription(bind, 0, None)];
    }

    /** addColorAttachment(index, layout = colour-attachment-optimal) */
    method AddColorAttachment(index: U32, layout: nat := VK_IMAGE_LAYOUT_COLOR_ATTACHMENT_OPTIMAL)
      modifies this
      ensures pending == old(pending) + [AttachmentReference(index, layout)]
      ensures attachments == old(attachments) && subpasses == old(subpasses) && store == old(store)
    {
      pending := pending + [AttachmentReference(index, layout)];
    }

    /** end(): stores the pending references as a new store entry, points
        the LAST subpass at it with the pending count, and clears the
        pending list. It reads subpasses_.back(), so a prior begin() is
        required. */
    method End()
      requires Valid() && |subpasses| > 0
      modifies this
      ensures Valid()
      ensures store == old(store) + [old(pending)] && pending == []
      ensures |subpasses| == |old(subpasses)|
      ensures subpasses[..|subpasses| - 1] == old(subpasses)[..|subpasses| - 1]
      ensures var last := subpasses[|subpasses| - 1];
              last.pipelineBindPoint == old(subpasses)[|subpasses| - 1].pipelineBindPoint
              && ColorReferences(last, store) == old(pending)
      ensures attachments == old(attachments)
    {
      var n := |subpasses| - 1;
      var desc := subpasses[n];
      var k := |store|;
      store := store + [pending];
      subpasses := subpasses[n := SubpassDescription(desc.pipelineBindPoint, |pending|, Some(k))];
      pending := [];
      forall i | 0 <= i < |subpasses|
        ensures Resolves(subpasses[i], store)
      {
        if i < n {
          assert Resolves(old(subpasses)[i], old(store));
        }
      }
    }
  }

  /** The counts of VkRenderPassCreateInfo. */
  datatype RenderPassCreateInfo = RenderPassCreateInfo(
    subpassCount: nat, subpasses: seq<SubpassDescription>,
    attachmentCount: nat, attachments: seq<AttachmentDescription>)

  class RenderPass {
    const handle: nat
    const createInfo: RenderPassCreateInfo

    constructor (handle: nat, createInfo: RenderPassCreateInfo)
      ensures this.handle == handle && this.createInfo == createInfo
    {
      this.handle := handle;
      this.createInfo := createInfo;
    }
  }

  /** RenderPass(builder): the create info carries every subpass and every
      attachment of the builder; a failing vkCreateRenderPass throws. */
  method CreateRenderPass(builder: RenderPassBuilder, createResult: VkResult, handle: nat) returns (r: Result<RenderPass>)
    ensures r.Ok? <==> createResult == VK_SUCCESS
    ensures r.Err? ==> r.error == UnsuccessfulResult("vkCreateRenderPass", createResult)
    ensures r.Ok? ==> fresh(r.value) && r.value.handle == handle
    ensures r.Ok? ==> r.value.createInfo.subpassCount == |builder.subpasses| && r.value.createInfo.subpasses == builder.subpasses
    ensures r.Ok? ==> r.value.createInfo.attachmentCount == |builder.attachments| && r.value.createInfo.attachments == builder.attachments
  {
    var info := RenderPassCreateInfo(|builder.subpasses|, builder.subpasses, |builder.attachments|, builder.attachments);
    if createResult != VK_SUCCESS {
      return Err(UnsuccessfulResult("vkCreateRenderPass", createResult));
    }
    var pass := new RenderPass(handle, info);
    return Ok(pass);
  }

  /** One subpass with two colour references: after begin, two
      addColorAttachment calls and end, the subpass reads both references
      in order and nothing is pending. */
  method OneSubpassScenario(b: RenderPassBuilder)
    requires b.Valid() && b.pending == []
    modifies b
    ensures b.Valid() && b.pending == []
    ensures |b.subpasses| == |old(b.subpasses)| + 1
    ensures ColorReferences(b.subpasses[|b.subpasses| - 1], b.store)
            == [AttachmentReference(0, VK_IMAGE_LAYOUT_COLOR_ATTACHMENT_OPTIMAL), AttachmentReference(1, VK_IMAGE_LAYOUT_COLOR_ATTACHMENT_OPTIMAL)]
  {
    b.Begin();
    b.AddColorAttachment(0);
    b.AddColorAttachment(1);
    b.End();
  }
}

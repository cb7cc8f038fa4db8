/** `transition_image` and `image_sub_resource_range` (src/engine/util.rs):
    the aspect chosen from the target layout and the fixed fields of the
    VkImageMemoryBarrier2 the function builds. */
module Util {
  import opened Vk
  import opened Outcomes

  /** VkImageSubresourceRange. */
  datatype ImageSubresourceRange = ImageSubresourceRange(
    aspectMask: ImageAspectFlags,
    baseMipLevel: uint32,
    levelCount: uint32,
    baseArrayLayer: uint32,
    layerCount: uint32)

  /** VkImageMemoryBarrier2 without sType and pNext. */
  datatype ImageMemoryBarrier2 = ImageMemoryBarrier2(
    srcStageMask: PipelineStageFlags2,
    srcAccessMask: AccessFlags2,
    dstStageMask: PipelineStageFlags2,
    dstAccessMask: AccessFlags2,
    oldLayout: ImageLayout,
    newLayout: ImageLayout,
    srcQueueFamilyIndex: uint32,
    dstQueueFamilyIndex: uint32,
    image: Handle,
    subresourceRange: ImageSubresourceRange)

  /** The `match` on `new_layout == DEPTH_ATTACHMENT_OPTIMAL`. */
  function AspectFor(newLayout: ImageLayout): (aspect: ImageAspectFlags)
    ensures aspect == IMAGE_ASPECT_DEPTH <==> newLayout == IMAGE_LAYOUT_DEPTH_ATTACHMENT_OPTIMAL
    ensures aspect == IMAGE_ASPECT_COLOR <==> newLayout != IMAGE_LAYOUT_DEPTH_ATTACHMENT_OPTIMAL
  {
    if newLayout == IMAGE_LAYOUT_DEPTH_ATTACHMENT_OPTIMAL then IMAGE_ASPECT_DEPTH else IMAGE_ASPECT_COLOR
  }

  /** Whether a range selects mip level `l` of an image with `mipLevels`
      levels (VkImageSubresourceRange in the Vulkan 1.3 specification: the
      level count VK_REMAINING_MIP_LEVELS means every level from the base on). */
  predicate SelectsLevel(range: ImageSubresourceRange, mipLevels: nat, l: nat) {
    && range.baseMipLevel <= l < mipLevels
    && (range.levelCount == REMAINING_MIP_LEVELS || l < range.baseMipLevel + range.levelCount)
  }

  /** Whether a range selects array layer `l` of an image with `arrayLayers` layers. */
  predicate SelectsLayer(range: ImageSubresourceRange, arrayLayers: nat, l: nat) {
    && range.baseArrayLayer <= l < arrayLayers
    && (range.layerCount == REMAINING_ARRAY_LAYERS || l < range.baseArrayLayer + range.layerCount)
  }

  /** `image_sub_resource_range`: the given aspect over every mip level and
      every array layer of the image. */
  function ImageSubResourceRange(aspect: ImageAspectFlags): (range: ImageSubresourceRange)
    ensures range.aspectMask == aspect
    ensures range.baseMipLevel == 0 && range.levelCount == REMAINING_MIP_LEVELS
    ensures range.baseArrayLayer == 0 && range.layerCount == REMAINING_ARRAY_LAYERS
    // whatever the image's size, every level and every layer is selected
    ensures forall mipLevels: nat, l: nat :: l < mipLevels <==> SelectsLevel(range, mipLevels, l)
    ensures forall arrayLayers: nat, l: nat :: l < arrayLayers <==> SelectsLayer(range, arrayLayers, l)
  {
    ImageSubresourceRange(aspect, 0, REMAINING_MIP_LEVELS, 0, REMAINING_ARRAY_LAYERS)
  }

  /** The barrier `transition_image` builds. `image` is not passed to the
      builder, so the barrier keeps the default null image and queue family
      indices 0. */
  function TransitionBarrier(currentLayout: ImageLayout, newLayout: ImageLayout): (b: ImageMemoryBarrier2)
    ensures b.oldLayout == currentLayout && b.newLayout == newLayout
    ensures b.srcStageMask == PIPELINE_STAGE_2_ALL_COMMANDS && b.dstStageMask == PIPELINE_STAGE_2_ALL_COMMANDS
    ensures b.srcAccessMask == ACCESS_2_MEMORY_WRITE
    ensures b.dstAccessMask == ACCESS_2_MEMORY_WRITE | ACCESS_2_MEMORY_READ
    ensures b.subresourceRange == ImageSubResourceRange(AspectFor(newLayout))
    ensures b.subresourceRange.aspectMask == IMAGE_ASPECT_DEPTH <==> newLayout == IMAGE_LAYOUT_DEPTH_ATTACHMENT_OPTIMAL
    ensures b.image == NULL_HANDLE
    ensures b.srcQueueFamilyIndex == 0 && b.dstQueueFamilyIndex == 0
  {
    ImageMemoryBarrier2(
      srcStageMask := PIPELINE_STAGE_2_ALL_COMMANDS,
      srcAccessMask := ACCESS_2_MEMORY_WRITE,
      dstStageMask := PIPELINE_STAGE_2_ALL_COMMANDS,
      dstAccessMask := ACCESS_2_MEMORY_WRITE | ACCESS_2_MEMORY_READ,
      oldLayout := currentLayout,
      newLayout := newLayout,
      srcQueueFamilyIndex := 0,
      dstQueueFamilyIndex := 0,
      image := NULL_HANDLE,
      subresourceRange := ImageSubResourceRange(AspectFor(newLayout)))
  }

  datatype TransitionError = TransitionError

  /** The commands recorded into a command buffer, as far as this core is
      concerned: image barriers. */
  datatype CommandBuffer = CommandBuffer(handle: Handle, recordedBarriers: seq<ImageMemoryBarrier2>)

  /** `transition_image`: the barrier is built and dropped; nothing is
      recorded into `commandBuffer`, and the result is always `Ok(())`. */
  function TransitionImage(commandBuffer: CommandBuffer, image: Handle, currentLayout: ImageLayout, newLayout: ImageLayout): (r: (Result<(), TransitionError>, CommandBuffer))
    ensures r.0 == Ok(())
    ensures r.1 == commandBuffer
  {
    var barrier := TransitionBarrier(currentLayout, newLayout);
    (Ok(()), commandBuffer)
  }
}

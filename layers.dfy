/** The keyboard's layers, the layer bitmask the framework hands to the
    keymap's hooks, and the rule that picks the default-layer image. */
module Layers {

  /** `layer_state_t`: one bit per layer, bit `n` set when layer `n` is on. */
  type LayerState = bv32

  const LayerCount: nat := 32

  // The layers of the keyboard, in the order of their enum.
  const DVK: nat := 0  // Dvorak base layer
  const QWT: nat := 1  // QWERTY base layer
  const SYM: nat := 2  // symbols layer
  const CTL: nat := 3  // control layer

  /** `IS_LAYER_ON_STATE(state, layer)`, which the framework defines as
      `layer_state_cmp`: an empty state counts as layer 0 alone being on,
      otherwise the layer's bit decides. */
  predicate IsLayerOnState(state: LayerState, layer: nat)
    requires layer < LayerCount
    ensures state == 0 ==> (IsLayerOnState(state, layer) <==> layer == DVK)
    ensures layer == DVK ==> (IsLayerOnState(state, layer) <==> state == 0 || state & 1 == 1)
    ensures layer == QWT ==> (IsLayerOnState(state, layer) <==> state & 2 == 2)
  {
    if state == 0 then layer == 0 else state & (1 << layer) != 0
  }

  /** The images the default-layer indicator can show. */
  datatype Image = ModeDvorak | ModeQwerty | ModeStenography

  /** The image `draw_default_layer_image` draws for a default-layer state:
      Dvorak wins over QWERTY, and stenography is the fallback. */
  function DefaultLayerImage(state: LayerState): (image: Image)
    ensures image == ModeDvorak <==> state == 0 || state & 1 == 1
    ensures image == ModeQwerty <==> state & 3 == 2
    ensures image == ModeStenography <==> state != 0 && state & 3 == 0
  {
    if IsLayerOnState(state, DVK) then ModeDvorak
    else if IsLayerOnState(state, QWT) then ModeQwerty
    else ModeStenography
  }

  /** The image that names a single layer: the two base layers have their
      own images, every other layer shows the stenography image. */
  function LayerImage(layer: nat): Image
  {
    if layer == DVK then ModeDvorak
    else if layer == QWT then ModeQwerty
    else ModeStenography
  }

  /** When the default-layer state holds exactly one layer, which is how
      the framework keeps it, the indicator shows that layer's image. */
  lemma SingleLayerImage(layer: nat)
    requires layer < LayerCount
    ensures DefaultLayerImage(1 << layer) == LayerImage(layer)
  {
  }

  /** Dvorak takes priority when both base-layer bits are set. */
  lemma DvorakTakesPriority(state: LayerState)
    requires IsLayerOnState(state, DVK) && IsLayerOnState(state, QWT)
    ensures DefaultLayerImage(state) == ModeDvorak
  {
  }

  /** Each image is chosen exactly when the framework's layer test says so:
      Dvorak when DVK is on, QWERTY when DVK is off and QWT on, and
      stenography when neither base layer is on. */
  lemma ImageChoice(state: LayerState)
    ensures DefaultLayerImage(state) == ModeDvorak <==> IsLayerOnState(state, DVK)
    ensures DefaultLayerImage(state) == ModeQwerty <==>
      !IsLayerOnState(state, DVK) && IsLayerOnState(state, QWT)
    ensures DefaultLayerImage(state) == ModeStenography <==>
      !IsLayerOnState(state, DVK) && !IsLayerOnState(state, QWT)
  {
  }

  /** Only the two base-layer bits matter: non-empty states (or two empty
      ones) that agree on them get the same image, whatever other layers
      are on. */
  lemma OnlyBaseLayersMatter(state: LayerState, other: LayerState)
    requires (state == 0) == (other == 0)
    requires state & 3 == other & 3
    ensures DefaultLayerImage(state) == DefaultLayerImage(other)
  {
  }

  /** `layer_state_set_kb`: the hook hands the new layer state back to the
      framework unchanged. */
  function LayerStateSetKb(state: LayerState): (r: LayerState)
    ensures r == state
  {
    state
  }
}

// Table sizes of the input layer.  zyncoder.h and zynpot.h, which define
// them, are not part of this model; the values are the ones the Zynthian
// V5 build uses (its gate-output table, MAX_NUM_ZYNGATEOUTS = 36, is
// indexed by switch number).
module Limits {
  const MAX_NUM_ZYNSWITCHES: nat := 36
  const MAX_NUM_ZYNCODERS: nat := 4
  const MAX_NUM_ZYNPOTS: nat := 4
}

/** The command records handed from the request layer to the encoders,
    one per command family member (5F10, 5F14, 5F15, 5F18, 5F40, 5F44,
    5F45).  Fields are Java ints; list fields are sequences. */
module Messages {

  /** One sub-phase of a 5F14 timing plan. */
  datatype SubPhase = SubPhase(
    minGreen: int,
    maxGreen: int,
    yellow: int,
    allRed: int,
    pedGreenFlash: int,
    pedRed: int)

  /** Switch the control strategy (field name as spelled by the source). */
  datatype Message5F10 = Message5F10(controlStrategy: int, effecTime: int)

  /** Sub-phase timings of a plan; only the first subPhaseCount entries of
      dynamicArray are encoded. */
  datatype Message5F14 = Message5F14(planId: int, subPhaseCount: int, dynamicArray: seq<SubPhase>)

  /** Plan contents: phase order (hexadecimal text), per-sub-phase greens,
      cycle time and offset. */
  datatype Message5F15 = Message5F15(
    planId: int,
    direct: int,
    phaseOrder: string,
    subPhaseCount: int,
    dynamicArray: seq<int>,
    cycleTime: int,
    offset: int)

  /** Select the plan to run. */
  datatype Message5F18 = Message5F18(planId: int)

  /** Query the current control strategy; it carries no field. */
  datatype Message5F40 = Message5F40

  /** Query the sub-phase timings of a plan. */
  datatype Message5F44 = Message5F44(planId: int)

  /** Query the contents of a plan. */
  datatype Message5F45 = Message5F45(planId: int)

  /** Any command record, as the encoders' dispatcher receives it. */
  datatype MessageObject =
    | Obj5F10(m10: Message5F10)
    | Obj5F14(m14: Message5F14)
    | Obj5F15(m15: Message5F15)
    | Obj5F18(m18: Message5F18)
    | Obj5F40(m40: Message5F40)
    | Obj5F44(m44: Message5F44)
    | Obj5F45(m45: Message5F45)
}

/**
 * The breathing configuration and its display text: the `modes` table, the
 * four-step sequence built for a mode, and the strings the instruction and
 * cycle labels receive.
 */
module Breathing {
  import opened Wrappers
  import opened Decimal

  /** breathPhase: 'idle' | 'inhale' | 'hold' | 'exhale' | 'rest'. */
  datatype Phase = Idle | Inhale | Hold | Exhale | Rest

  /** One entry of `modes`: durations in whole seconds. */
  datatype BreathMode = BreathMode(name: string, inhale: int, hold: int, exhale: int)

  /** One entry of the sequence built by startBreathingSequence: duration in milliseconds. */
  datatype Step = Step(phase: Phase, duration: int)

  /** The rest step lasts one second whatever the mode. */
  const RestMs: int := 1000

  const StepCount: nat := 4

  /** The key of the mode selected when the page loads. */
  const DefaultModeKey: string := "balance"

  predicate ValidMode(m: BreathMode) {
    m.inhale > 0 && m.hold > 0 && m.exhale > 0
  }

  /** `modes[key]`: None when the key names no mode. */
  function Modes(key: string): Option<BreathMode> {
    if key == "balance" then Some(BreathMode("Balance", 4, 4, 4))
    else if key == "calm" then Some(BreathMode("Calm", 4, 7, 8))
    else if key == "energize" then Some(BreathMode("Energize", 4, 4, 2))
    else None
  }

  /** The sequence inhale, hold, exhale, rest with their durations in milliseconds. */
  function Sequence(m: BreathMode): seq<Step> {
    [Step(Inhale, m.inhale * 1000), Step(Hold, m.hold * 1000),
     Step(Exhale, m.exhale * 1000), Step(Rest, RestMs)]
  }

  /** The reference order of the breathing cycle. */
  function NextPhase(p: Phase): Phase {
    match p
    case Inhale => Hold
    case Hold => Exhale
    case Exhale => Rest
    case Rest => Inhale
    case Idle => Idle
  }

  /** Exactly the three keys of the table resolve, and every mode there has positive durations. */
  lemma ModesTable(key: string)
    ensures Modes(key).Some? <==> key in {"balance", "calm", "energize"}
    ensures Modes(key).Some? ==> ValidMode(Modes(key).value)
    ensures Modes(DefaultModeKey).Some?
  {
  }

  /**
   * The sequence has four steps, none idle, each lasting a positive time; step i
   * is followed by step (i + 1) % 4 in the cycle order and lasts as long as the mode says.
   */
  lemma SequenceShape(m: BreathMode, i: nat)
    requires ValidMode(m) && i < StepCount
    ensures |Sequence(m)| == StepCount
    ensures Sequence(m)[0].phase == Inhale
    ensures Sequence(m)[i].phase != Idle && Sequence(m)[i].duration > 0
    ensures Sequence(m)[(i + 1) % StepCount].phase == NextPhase(Sequence(m)[i].phase)
    ensures Sequence(m)[i].phase == Rest <==> i == StepCount - 1
    ensures Sequence(m)[i].duration ==
              match Sequence(m)[i].phase
              case Inhale => m.inhale * 1000
              case Hold => m.hold * 1000
              case Exhale => m.exhale * 1000
              case _ => RestMs
  {
  }

  /** getInstructionText: the label for each phase, "Ready to Begin" otherwise. */
  function InstructionText(p: Phase): string {
    match p
    case Inhale => "Breathe In"
    case Hold => "Hold"
    case Exhale => "Breathe Out"
    case Rest => "Rest"
    case Idle => "Ready to Begin"
  }

  /** The cycle label of updateInstructionUI: empty until a cycle completes, then pluralised. */
  function CycleText(n: nat): string {
    if n > 0 then NatToString(n) + " cycle" + (if n == 1 then "" else "s") else ""
  }

  /** The label names the phase: different phases get different labels. */
  lemma InstructionTextDistinct(p: Phase, q: Phase)
    ensures InstructionText(p) == InstructionText(q) <==> p == q
    ensures InstructionText(Idle) == "Ready to Begin"
  {
  }

  lemma CycleTextCases(n: nat)
    ensures n == 0 ==> CycleText(n) == ""
    ensures n == 1 ==> CycleText(n) == "1 cycle"
    ensures n >= 2 ==> CycleText(n) == NatToString(n) + " cycles"
  {
  }

  /** The cycle label determines the count it was made from. */
  lemma {:induction false} CycleTextInjective(n: nat, k: nat)
    requires CycleText(n) == CycleText(k)
    ensures n == k
  {
    if n > 0 && k > 0 {
      var a, b := NatToString(n), NatToString(k);
      var s := CycleText(n);
      assert s == a + (" cycle" + (if n == 1 then "" else "s"));
      assert s == b + (" cycle" + (if k == 1 then "" else "s"));
      assert |a| == |b|;
      assert a == s[..|a|] == b;
      NatToStringInjective(n, k);
    }
  }
}

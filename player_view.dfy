/** A player slot as the view layer shows it: its record, its slot number,
    its colour and the readings of its flags and AI tactic. */
module PlayerView {
  import opened Cursor
  import opened Rules
  import opened PlayerRecords
  import opened Outcomes

  datatype Color = Red | Blue | Tan | Green | Orange | Purple | Teal | Pink

  /** The colours of the eight slots, in slot order. */
  const COLORS: seq<Color> := [Red, Blue, Tan, Green, Orange, Purple, Teal, Pink]

  datatype AiTactic = Random | Warrior | Builder | Explorer

  /** `color` is None for a number past the colour table. */
  datatype Player = Player(record: PlayerRecord, number: nat, color: Option<Color>)

  function NewPlayer(record: PlayerRecord, number: nat): (p: Player)
    ensures p.record == record && p.number == number
    ensures p.color.Some? <==> number < |COLORS|
    ensures p.color.Some? ==> p.color.value == COLORS[number]
  {
    Player(record, number, if number < |COLORS| then Some(COLORS[number]) else None)
  }

  /** The slot a colour belongs to. */
  function ColorNumber(c: Color): nat
  {
    match c
    case Red => 0
    case Blue => 1
    case Tan => 2
    case Green => 3
    case Orange => 4
    case Purple => 5
    case Teal => 6
    case Pink => 7
  }

  /** Every colour names exactly one slot: COLORS lists eight distinct
      colours, and each slot's colour leads back to the slot. */
  lemma ColorsDistinct()
    ensures |COLORS| == 8
    ensures forall n :: 0 <= n < |COLORS| ==> ColorNumber(COLORS[n]) == n
    ensures forall c: Color :: ColorNumber(c) < |COLORS| && COLORS[ColorNumber(c)] == c
    ensures forall i, j :: 0 <= i < j < |COLORS| ==> COLORS[i] != COLORS[j]
  {
    forall i, j | 0 <= i < j < |COLORS|
      ensures COLORS[i] != COLORS[j]
    {
      assert ColorNumber(COLORS[i]) == i;
    }
  }

  /** An availability flag: 0 and 1 are read as false and true, any other
      value is refused with `error`. */
  function Flag(flag: Byte, error: Failure): (r: Outcome<bool>)
    ensures r.Raised? <==> flag != 0 && flag != 1
    ensures r.Raised? ==> r.failure == error
    ensures r.Value? ==> (r.value <==> flag == 1)
  {
    if flag != 0 && flag != 1 then Raised(error) else Value(flag != 0)
  }

  function Human(p: Player): (r: Outcome<bool>)
    ensures r.Raised? <==> p.record.canBeHuman > 1
    ensures r.Raised? ==> r.failure == UnknownHuman(p.record.canBeHuman) && IsPlayerError(r.failure)
    ensures r.Value? ==> (r.value <==> p.record.canBeHuman == 1)
  {
    Flag(p.record.canBeHuman, UnknownHuman(p.record.canBeHuman))
  }

  function Computer(p: Player): (r: Outcome<bool>)
    ensures r.Raised? <==> p.record.canBeComputer > 1
    ensures r.Raised? ==> r.failure == UnknownComputer(p.record.canBeComputer) && IsPlayerError(r.failure)
    ensures r.Value? ==> (r.value <==> p.record.canBeComputer == 1)
  {
    Flag(p.record.canBeComputer, UnknownComputer(p.record.canBeComputer))
  }

  /** `human? || computer?`: the computer flag is looked at only when the
      human flag reads false. */
  function Present(p: Player): (r: Outcome<bool>)
    ensures r.Raised? <==> p.record.canBeHuman > 1 || (p.record.canBeHuman == 0 && p.record.canBeComputer > 1)
    ensures r.Value? ==> (r.value <==> p.record.canBeHuman == 1 || p.record.canBeComputer == 1)
  {
    var human := Human(p);
    if human.Raised? then human
    else if human.value then Value(true)
    else Computer(p)
  }

  /** Where the view accepts the flags, it agrees with the decoder's test
      for a playable slot, and so with the presence of the info block. */
  lemma PresentAgreesWithDecoder(p: Player, v: U32)
    requires WfPlayer(p.record, v)
    requires Human(p).Value? && Computer(p).Value?
    ensures Present(p).Value?
    ensures Present(p).value <==> CanPlay(p.record.canBeHuman, p.record.canBeComputer)
    ensures Present(p).value <==> p.record.info.Some?
  {
  }

  /** The decoder takes any nonzero flag as playable, the view refuses
      every flag above 1: a slot whose human flag is above 1, or whose
      human flag is 0 and computer flag above 1, carries an info block,
      yet `present?` raises a PlayerError for it. */
  lemma ViewStricterThanDecoder(p: Player, v: U32)
    requires p.record.canBeHuman > 1 || (p.record.canBeHuman == 0 && p.record.canBeComputer > 1)
    ensures CanPlay(p.record.canBeHuman, p.record.canBeComputer)
    ensures WfPlayer(p.record, v) ==> p.record.info.Some?
    ensures p.record.canBeHuman > 1 ==>
      && Human(p) == Raised(UnknownHuman(p.record.canBeHuman))
      && Present(p) == Raised(UnknownHuman(p.record.canBeHuman))
    ensures p.record.canBeHuman == 0 ==>
      && Computer(p) == Raised(UnknownComputer(p.record.canBeComputer))
      && Present(p) == Raised(UnknownComputer(p.record.canBeComputer))
  {
  }

  /** Short-circuit: a slot that humans can take is present even with a
      computer flag `computer?` refuses. */
  lemma PresentShortCircuit(p: Player)
    requires p.record.canBeHuman == 1
    ensures Present(p) == Value(true)
    ensures p.record.canBeComputer > 1 ==> Computer(p).Raised?
  {
  }

  /** The tactic codes 0 to 3; anything else, or a slot without info, is
      an error that is not a MapError. */
  function AiTacticOf(p: Player): (r: Outcome<AiTactic>)
    ensures p.record.info.None? ==> r == Raised(NoInfo)
    ensures p.record.info.Some? ==> (r.Value? <==> p.record.info.value.aiTactic <= 3)
    ensures r.Raised? ==> !IsMapError(r.failure)
  {
    if p.record.info.None? then Raised(NoInfo)
    else
      match p.record.info.value.aiTactic
      case 0 => Value(Random)
      case 1 => Value(Warrior)
      case 2 => Value(Builder)
      case 3 => Value(Explorer)
      case code => Raised(UnknownAiTactic(code))
  }

  /** The code of a tactic. */
  function AiTacticCode(a: AiTactic): Byte
  {
    match a
    case Random => 0
    case Warrior => 1
    case Builder => 2
    case Explorer => 3
  }

  /** The tactic table is one-to-one: each accepted code gives the tactic
      whose code it is, and each tactic is read back from its code. */
  lemma AiTacticTable(p: Player, a: AiTactic)
    ensures AiTacticOf(p).Value? ==> AiTacticCode(AiTacticOf(p).value) == p.record.info.value.aiTactic
    ensures p.record.info.Some? && p.record.info.value.aiTactic == AiTacticCode(a) ==> AiTacticOf(p) == Value(a)
  {
  }
}

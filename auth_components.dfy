/**
 * The shared auth widgets: the dashed six-slot OTP display, the OTP field's six-character limit,
 * and the primary button's disabled state.
 */
module AuthComponents {
  import opened Wrappers

  const OtpSlotCount: int := 6

  /** The placeholder of an empty slot, an en dash. */
  const Dash: char := '\U{2013}'

  /** Slot i shows the i-th entered character, or the dash past the end of the entry. */
  function OtpSlots(value: string): (slots: seq<char>)
    ensures |slots| == OtpSlotCount
  {
    seq(OtpSlotCount, i requires 0 <= i < OtpSlotCount => if i < |value| then value[i] else Dash)
  }

  /** A field with `maxLength={6}` holds at most the first six characters typed. */
  function OtpFieldText(typed: string): (v: string)
    ensures |v| <= OtpSlotCount
    ensures |v| <= |typed| && v == typed[..|v|]
    ensures |typed| <= OtpSlotCount ==> v == typed
  {
    if |typed| <= OtpSlotCount then typed else typed[..OtpSlotCount]
  }

  /** What a reader of the slots takes as entered: the characters before the first dash. */
  function EnteredPrefix(slots: seq<char>): string {
    if slots == [] || slots[0] == Dash then [] else [slots[0]] + EnteredPrefix(slots[1..])
  }

  function Dashes(n: nat): seq<char> {
    seq(n, _ => Dash)
  }

  lemma {:induction false} EnteredPrefixOfPadded(value: string, n: nat)
    requires Dash !in value
    ensures EnteredPrefix(value + Dashes(n)) == value
  {
    if value == [] {
      if n > 0 {
        assert (value + Dashes(n))[0] == Dash;
      }
    } else {
      assert (value + Dashes(n))[1..] == value[1..] + Dashes(n);
      EnteredPrefixOfPadded(value[1..], n);
    }
  }

  /** The slots of an entry of at most six characters are the entry followed by dashes. */
  lemma OtpSlotsArePadded(value: string)
    requires |value| <= OtpSlotCount
    ensures OtpSlots(value) == value + Dashes(OtpSlotCount - |value|)
  {
  }

  /** The display shows an entry of at most six dash-free characters faithfully: it reads back as the entry. */
  lemma OtpSlotsRoundTrip(value: string)
    requires |value| <= OtpSlotCount && Dash !in value
    ensures EnteredPrefix(OtpSlots(value)) == value
  {
    OtpSlotsArePadded(value);
    EnteredPrefixOfPadded(value, OtpSlotCount - |value|);
  }

  /** Characters past the sixth are never displayed. */
  lemma OtpSlotsIgnoreOverflow(value: string)
    requires |value| > OtpSlotCount
    ensures OtpSlots(value) == OtpSlots(value[..OtpSlotCount]) == value[..OtpSlotCount]
  {
  }

  /** Whatever dash-free text is typed, the field's text is shown in full: its slots read it back. */
  lemma OtpFieldShownInFull(typed: string)
    requires Dash !in typed
    ensures EnteredPrefix(OtpSlots(OtpFieldText(typed))) == OtpFieldText(typed)
  {
    OtpSlotsRoundTrip(OtpFieldText(typed));
  }

  /** `PrimaryButton`: a press reaches the handler only when the button is not disabled; `disabled` defaults to false. */
  function PrimaryButtonFires(disabled: Option<bool>): (fires: bool)
    ensures fires <==> disabled != Some(true)
  {
    !disabled.GetOr(false)
  }
}

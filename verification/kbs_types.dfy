/** Value types the confirm-PIN screen works with: the PIN itself, the keyboard
    mode, the outcome the key-backup repository reports, and the request the
    screen hands to that repository. */
module KbsTypes {

  /** The conventional Some/None datatype. */
  datatype Option<+T> = None | Some(value: T)

  /** A PIN as the screen holds it. Two PINs are compared by their string form
      (`text`), which is what `toString()` returns. */
  datatype KbsPin = KbsPin(text: string)

  /** The empty PIN: the value the entry starts with and is reset to. */
  const Empty: KbsPin := KbsPin("")

  /** Whether two PINs have the same string form. */
  predicate SameText(a: KbsPin, b: KbsPin) {
    a.text == b.text
  }

  /** The keyboard mode. The source's enum is taken to have exactly these two
      values, and `Other` to swap them. */
  datatype KeyboardType = Numeric | AlphaNumeric {

    /** The mode the toggle switches to. */
    function Other(): (r: KeyboardType)
      ensures r != this
    {
      match this
      case Numeric => AlphaNumeric
      case AlphaNumeric => Numeric
    }
  }

  /** Toggling the mode twice gives back the mode one started with. */
  lemma OtherIsInvolution(k: KeyboardType)
    ensures k.Other().Other() == k
  {
  }

  /** What the key-backup repository reports when a set-PIN attempt ends. */
  datatype PinSetResult = Success | Failure

  /** A set-PIN request handed to the key-backup repository: the PIN to store
      and the keyboard mode it was entered with. */
  datatype Request = Request(pin: KbsPin, keyboard: KeyboardType)
}

/** The three public enums: button sets, results, and icons (with their aliases). */
module Enums {
  import opened Wrappers

  /** Which buttons the message box shows. */
  datatype MessageBoxButtons = OK | OKCancel | AbortRetryIgnore | YesNoCancel | YesNo | RetryCancel | CancelTryAgainContinue
  {
    /** The underlying enum value. */
    function Value(): nat {
      match this
      case OK => 0
      case OKCancel => 1
      case AbortRetryIgnore => 2
      case YesNoCancel => 3
      case YesNo => 4
      case RetryCancel => 5
      case CancelTryAgainContinue => 6
    }
  }

  /** How the box was closed, and which button is the default. */
  datatype MessageBoxResult = None | OK | Cancel | Abort | Retry | Ignore | Yes | No | Continue | YesToAll | NoToAll
  {
    function Value(): nat {
      match this
      case None => 0
      case OK => 1
      case Cancel => 2
      case Abort => 3
      case Retry => 4
      case Ignore => 5
      case Yes => 6
      case No => 7
      case Continue => 8
      case YesToAll => 9
      case NoToAll => 10
    }
  }

  /**
   * The icon to show. The enum has four distinct icon values plus None; the
   * other names are aliases that share a value with one of these.
   */
  datatype MessageBoxImages = None | Stop | Question | Warning | Information
  {
    function Value(): nat {
      match this
      case None => 0
      case Stop => 16
      case Question => 32
      case Warning => 48
      case Information => 64
    }
  }

  const Error: MessageBoxImages := MessageBoxImages.Stop
  const Hand: MessageBoxImages := MessageBoxImages.Stop
  const Exclamation: MessageBoxImages := MessageBoxImages.Warning
  const Asterisk: MessageBoxImages := MessageBoxImages.Information

  /** The enum member, if any, that has value `v`. */
  function ButtonsFromValue(v: int): (r: Option<MessageBoxButtons>)
    ensures r.Some? ==> r.value.Value() == v
    ensures r.None? <==> !(0 <= v <= 6)
  {
    if v == 0 then Some(MessageBoxButtons.OK)
    else if v == 1 then Some(OKCancel)
    else if v == 2 then Some(AbortRetryIgnore)
    else if v == 3 then Some(YesNoCancel)
    else if v == 4 then Some(YesNo)
    else if v == 5 then Some(RetryCancel)
    else if v == 6 then Some(CancelTryAgainContinue)
    else Option.None
  }

  function ImagesFromValue(v: int): (r: Option<MessageBoxImages>)
    ensures r.Some? ==> r.value.Value() == v
    ensures r.None? <==> v !in {0, 16, 32, 48, 64}
  {
    if v == 0 then Some(MessageBoxImages.None)
    else if v == 16 then Some(Stop)
    else if v == 32 then Some(Question)
    else if v == 48 then Some(Warning)
    else if v == 64 then Some(Information)
    else Option.None
  }

  /** Reading a member's value back gives the member: the values are pairwise distinct. */
  lemma ValuesRoundTrip(b: MessageBoxButtons, i: MessageBoxImages)
    ensures ButtonsFromValue(b.Value()) == Some(b)
    ensures ImagesFromValue(i.Value()) == Some(i)
  {
  }

  /** The aliases are the same enum value as the name they stand for. */
  lemma AliasValues()
    ensures Error.Value() == Hand.Value() == MessageBoxImages.Stop.Value() == 16
    ensures Exclamation.Value() == MessageBoxImages.Warning.Value() == 48
    ensures Asterisk.Value() == MessageBoxImages.Information.Value() == 64
  {
  }

  /** The results the buttons of a set can produce, as each set's documentation names its buttons (Try Again yields Retry). */
  function ButtonResults(b: MessageBoxButtons): (rs: set<MessageBoxResult>)
    ensures MessageBoxResult.None !in rs
    ensures 1 <= |rs| <= 3
  {
    match b
    case OK => {MessageBoxResult.OK}
    case OKCancel => {MessageBoxResult.OK, MessageBoxResult.Cancel}
    case AbortRetryIgnore => {MessageBoxResult.Abort, MessageBoxResult.Retry, MessageBoxResult.Ignore}
    case YesNoCancel => {MessageBoxResult.Yes, MessageBoxResult.No, MessageBoxResult.Cancel}
    case YesNo => {MessageBoxResult.Yes, MessageBoxResult.No}
    case RetryCancel => {MessageBoxResult.Retry, MessageBoxResult.Cancel}
    case CancelTryAgainContinue => {MessageBoxResult.Cancel, MessageBoxResult.Retry, MessageBoxResult.Continue}
  }
}

/**
 * The button and check-box captions. Each caption has a backing field that a
 * setter writes; the getter returns that override unless it is null or
 * whitespace, and otherwise falls back to the system's own caption (standard
 * buttons) or to a fixed English literal (the library's own elements).
 */
module Strings {
  import opened Wrappers
  import opened Text

  /** The fifteen caption properties. */
  datatype Caption =
    | OK | Cancel | Abort | Retry | Ignore | Yes | No | Help | TryAgain | Continue
    | YesToAll | NoToAll | DoNotShowAgain | OpenDetails | CloseDetails
  {
    /** Captions the operating system provides a text for. */
    predicate IsStandard() {
      !(YesToAll? || NoToAll? || DoNotShowAgain? || OpenDetails? || CloseDetails?)
    }
  }

  /** The ids of the library's own captions. */
  const YesToAllId: int := -800
  const NoToAllId: int := -801
  const DoNotShowAgainId: int := -802
  const OpenDetailsId: int := -803
  const CloseDetailsId: int := -804

  /** The id a custom caption's getter passes to `LoadCustom`. */
  function CustomId(c: Caption): int
    requires !c.IsStandard()
  {
    match c
    case YesToAll => YesToAllId
    case NoToAll => NoToAllId
    case DoNotShowAgain => DoNotShowAgainId
    case OpenDetails => OpenDetailsId
    case CloseDetails => CloseDetailsId
  }

  /**
   * The getter of a standard caption: the override when it is not null or
   * whitespace, otherwise the system text with `&` access-key markers turned
   * into `_`. `sys` stands for the system text lookup.
   */
  function Load(c: Caption, alternate: NullableString, sys: Caption -> string): (r: string)
    ensures !IsNullOrWhiteSpace(alternate) ==> r == alternate.value
    ensures IsNullOrWhiteSpace(alternate) ==> '&' !in r && |r| == |sys(c)|
    ensures IsNullOrWhiteSpace(alternate) ==>
              forall i :: 0 <= i < |r| ==> r[i] == if sys(c)[i] == '&' then '_' else sys(c)[i]
  {
    if !IsNullOrWhiteSpace(alternate) then alternate.value
    else
      ReplaceChar(sys(c), '&', '_')
  }

  /** The getter of a custom caption: the override, or the built-in literal for the id, or "" for an unknown id. */
  function LoadCustom(id: int, alternate: NullableString): (r: string)
    ensures !IsNullOrWhiteSpace(alternate) ==> r == alternate.value
  {
    if !IsNullOrWhiteSpace(alternate) then alternate.value
    else if id == YesToAllId then "Y_es to All"
    else if id == NoToAllId then "N_o to All"
    else if id == DoNotShowAgainId then "_Don't show this message again"
    else if id == OpenDetailsId then "_Show Details"
    else if id == CloseDetailsId then "_Hide Details"
    else ""
  }

  /** A whitespace-only override is treated exactly like no override at all. */
  lemma WhitespaceOverrideIsIgnored(c: Caption, id: int, alternate: NullableString, sys: Caption -> string)
    requires IsNullOrWhiteSpace(alternate)
    ensures Load(c, alternate, sys) == Load(c, Option.None, sys)
    ensures LoadCustom(id, alternate) == LoadCustom(id, Option.None)
  {
  }

  /** The fallback literals of the five custom captions. */
  lemma CustomFallbacks()
    ensures LoadCustom(CustomId(YesToAll), Option.None) == "Y_es to All"
    ensures LoadCustom(CustomId(NoToAll), Option.None) == "N_o to All"
    ensures LoadCustom(CustomId(DoNotShowAgain), Option.None) == "_Don't show this message again"
    ensures LoadCustom(CustomId(OpenDetails), Option.None) == "_Show Details"
    ensures LoadCustom(CustomId(CloseDetails), Option.None) == "_Hide Details"
  {
  }

  /** Only an id outside the five yields the empty string. */
  lemma UnknownIdIsEmpty(id: int, alternate: NullableString)
    requires IsNullOrWhiteSpace(alternate)
    ensures LoadCustom(id, alternate) == "" <==> id !in {YesToAllId, NoToAllId, DoNotShowAgainId, OpenDetailsId, CloseDetailsId}
  {
  }

  class MessageBoxStrings {
    var ok: NullableString
    var cancel: NullableString
    var abort: NullableString
    var retry: NullableString
    var ignore: NullableString
    var yes: NullableString
    var no: NullableString
    var help: NullableString
    var tryAgain: NullableString
    var continue_: NullableString
    var yesToAll: NullableString
    var noToAll: NullableString
    var doNotShowAgain: NullableString
    var openDetails: NullableString
    var closeDetails: NullableString

    /** A new object has no overrides. */
    constructor ()
      ensures forall c :: Stored(c) == Option.None
    {
      ok, cancel, abort, retry, ignore := Option.None, Option.None, Option.None, Option.None, Option.None;
      yes, no, help, tryAgain, continue_ := Option.None, Option.None, Option.None, Option.None, Option.None;
      yesToAll, noToAll, doNotShowAgain := Option.None, Option.None, Option.None;
      openDetails, closeDetails := Option.None, Option.None;
    }

    /** The backing field of caption `c`. */
    function Stored(c: Caption): NullableString
      reads this
    {
      match c
      case OK => ok
      case Cancel => cancel
      case Abort => abort
      case Retry => retry
      case Ignore => ignore
      case Yes => yes
      case No => no
      case Help => help
      case TryAgain => tryAgain
      case Continue => continue_
      case YesToAll => yesToAll
      case NoToAll => noToAll
      case DoNotShowAgain => doNotShowAgain
      case OpenDetails => openDetails
      case CloseDetails => closeDetails
    }

    /** The property getter of caption `c`; getters only read. */
    function Get(c: Caption, sys: Caption -> string): (r: string)
      reads this
      ensures !IsNullOrWhiteSpace(Stored(c)) ==> r == Stored(c).value
      ensures IsNullOrWhiteSpace(Stored(c)) && c.IsStandard() ==> r == ReplaceChar(sys(c), '&', '_') && '&' !in r
      ensures IsNullOrWhiteSpace(Stored(c)) && !c.IsStandard() ==> r == LoadCustom(CustomId(c), Option.None) && r != ""
    {
      if c.IsStandard() then Load(c, Stored(c), sys)
      else
        LoadCustom(CustomId(c), Stored(c))
    }

    /** The getters of a list of captions, in order. */
    function Labels(cs: seq<Caption>, sys: Caption -> string): (r: seq<string>)
      reads this
      ensures |r| == |cs|
      ensures forall i :: 0 <= i < |cs| ==> r[i] == Get(cs[i], sys)
    {
      if cs == [] then [] else [Get(cs[0], sys)] + Labels(cs[1..], sys)
    }

    /** The property setter of caption `c`: it writes that caption's backing field and no other. */
    method Set(c: Caption, value: NullableString)
      modifies this
      ensures Stored(c) == value
      ensures forall d :: d != c ==> Stored(d) == old(Stored(d))
    {
      match c
      case OK => ok := value;
      case Cancel => cancel := value;
      case Abort => abort := value;
      case Retry => retry := value;
      case Ignore => ignore := value;
      case Yes => yes := value;
      case No => no := value;
      case Help => help := value;
      case TryAgain => tryAgain := value;
      case Continue => continue_ := value;
      case YesToAll => yesToAll := value;
      case NoToAll => noToAll := value;
      case DoNotShowAgain => doNotShowAgain := value;
      case OpenDetails => openDetails := value;
      case CloseDetails => closeDetails := value;
    }
  }
}

/** The icon control: its `Image` property selects one of the system icons. */
module Image {
  import opened Wrappers
  import opened Enums

  /** The system icons the control can show (`SystemIcons.Error`, ...). */
  datatype SystemIcon = ErrorIcon | WarningIcon | InformationIcon | QuestionIcon

  /** The icon a change of `Image` selects, or None when the switch falls to its default case. */
  function IconFor(image: MessageBoxImages): (r: Option<SystemIcon>)
    ensures r.None? <==> image == MessageBoxImages.None
  {
    match image
    case Stop => Some(ErrorIcon)
    case Warning => Some(WarningIcon)
    case Information => Some(InformationIcon)
    case Question => Some(QuestionIcon)
    case None => Option.None
  }

  /** Each alias selects the icon of the value it shares; distinct values select distinct icons. */
  lemma IconForAliases(a: MessageBoxImages, b: MessageBoxImages)
    ensures IconFor(Error) == IconFor(Hand) == Some(ErrorIcon)
    ensures IconFor(Exclamation) == Some(WarningIcon)
    ensures IconFor(Asterisk) == Some(InformationIcon)
    ensures IconFor(a) == IconFor(b) <==> a.Value() == b.Value()
  {
  }

  class MessageBoxImage {
    var image: MessageBoxImages
    /** The bitmap shown, null until an icon is selected. */
    var bitmapSource: Option<SystemIcon>

    constructor ()
      ensures image == MessageBoxImages.None && bitmapSource == Option.None
    {
      image := MessageBoxImages.None;
      bitmapSource := Option.None;
    }

    /**
     * Assigning the property. The framework calls the change handler only when
     * the value actually changes.
     */
    method SetImage(value: MessageBoxImages)
      modifies this
      ensures image == value
      ensures value != old(image) && IconFor(value).Some? ==> bitmapSource == IconFor(value)
      ensures value == old(image) || IconFor(value).None? ==> bitmapSource == old(bitmapSource)
    {
      if value != image {
        image := value;
        OnImageChanged();
      }
    }

    /** The change handler: a known icon replaces the bitmap, any other value keeps it. */
    method OnImageChanged()
      modifies this`bitmapSource
      ensures bitmapSource == match IconFor(image) case Some(_) => IconFor(image) case None => old(bitmapSource)
    {
      match image {
        case Stop => bitmapSource := Some(ErrorIcon);
        case Warning => bitmapSource := Some(WarningIcon);
        case Information => bitmapSource := Some(InformationIcon);
        case Question => bitmapSource := Some(QuestionIcon);
        case None => bitmapSource := bitmapSource;
      }
    }
  }
}

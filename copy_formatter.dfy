/**
 * The default Ctrl+C formatter: the title, the message, the button captions
 * and the details, each on its own line between separator lines. The text
 * goes to the clipboard; here it is returned.
 */
module CopyFormatter {
  import opened Wrappers
  import opened Text
  import opened Enums
  import Strings

  const Separator: string := "---------------------------"
  /** What follows every caption on the button line. */
  const ButtonGap: string := "   "

  datatype Exception = NullReferenceException

  /** The captions the button line lists, in order; the Cancel/Try Again/Continue set has no line. */
  function ButtonCaptions(b: MessageBoxButtons): (cs: seq<Strings.Caption>)
    ensures cs == [] <==> b == CancelTryAgainContinue
  {
    match b
    case OK => [Strings.Caption.OK]
    case OKCancel => [Strings.Caption.OK, Strings.Caption.Cancel]
    case RetryCancel => [Strings.Caption.Retry, Strings.Caption.Cancel]
    case YesNo => [Strings.Caption.Yes, Strings.Caption.No]
    case YesNoCancel => [Strings.Caption.Yes, Strings.Caption.No, Strings.Caption.Cancel]
    case AbortRetryIgnore => [Strings.Caption.Abort, Strings.Caption.Retry, Strings.Caption.Ignore]
    case CancelTryAgainContinue => []
  }

  /** A caption without its access-key markers. */
  function GetString(original: string): (r: string)
    ensures '_' !in r
    ensures |r| == |original| - Count(original, '_')
    ensures '_' !in original ==> r == original
  {
    WithoutLength(original, '_');
    Without(original, '_')
  }

  lemma GetStringIdempotent(s: string)
    ensures GetString(GetString(s)) == GetString(s)
  {
  }

  /** Each caption without markers, followed by the gap. */
  function ButtonLine(labels: seq<string>): (r: string)
    ensures '_' !in r
  {
    if labels == [] then "" else GetString(labels[0]) + ButtonGap + ButtonLine(labels[1..])
  }

  /** The button line, when the set has one. */
  function ButtonLines(labels: seq<string>): seq<string> {
    if labels == [] then [] else [ButtonLine(labels)]
  }

  /** The lines of the copied text. A null title or message gives an empty line. */
  function CopyLines(title: NullableString, message: NullableString, details: NullableString, labels: seq<string>): (lines: seq<string>)
    ensures |lines| == 6 + (if labels == [] then 0 else 1) + (if IsNullOrWhiteSpace(details) then 0 else 2)
    ensures lines[0] == Separator && lines[|lines| - 1] == Separator
  {
    [Separator, title.GetOr(""), Separator, message.GetOr(""), Separator] + ButtonLines(labels) + [Separator]
    + (if IsNullOrWhiteSpace(details) then [] else [details.value, Separator])
  }

  /** Lines joined, each one ended by a line break. */
  function Joined(lines: seq<string>): string {
    if lines == [] then "" else lines[0] + NewLine + Joined(lines[1..])
  }

  /**
   * A `StringBuilder` that is only ever given whole lines: the lines appended so
   * far. Its `ToString()` is `Joined` of them.
   */
  type LineBuilder = seq<string>

  /** `StringBuilder.AppendLine`: a null value appends an empty line. */
  function AppendLine(builder: LineBuilder, value: NullableString): LineBuilder {
    builder + [value.GetOr("")]
  }

  lemma {:induction false} JoinedAppend(a: seq<string>, b: seq<string>)
    ensures Joined(a + b) == Joined(a) + Joined(b)
  {
    if a == [] {
      assert a + b == b;
    } else {
      assert (a + b)[1..] == a[1..] + b;
      JoinedAppend(a[1..], b);
    }
  }

  /**
   * The copied text written out: the five header lines, the button line if
   * any, a separator, and the details with a last separator if any, each
   * line followed by a line break.
   */
  lemma CopyText(title: NullableString, message: NullableString, details: NullableString, labels: seq<string>)
    ensures Joined(CopyLines(title, message, details, labels))
         == (Separator + NewLine + (title.GetOr("") + NewLine + (Separator + NewLine + (message.GetOr("") + NewLine + (Separator + NewLine)))))
            + (if labels == [] then "" else ButtonLine(labels) + NewLine)
            + (Separator + NewLine)
            + (if IsNullOrWhiteSpace(details) then "" else details.value + NewLine + (Separator + NewLine))
  {
    var head := [Separator, title.GetOr(""), Separator, message.GetOr(""), Separator];
    var tail := if IsNullOrWhiteSpace(details) then [] else [details.value, Separator];
    JoinedAppend(head + ButtonLines(labels) + [Separator], tail);
    JoinedAppend(head + ButtonLines(labels), [Separator]);
    JoinedAppend(head, ButtonLines(labels));
    JoinedHead(title.GetOr(""), message.GetOr(""));
    JoinedOne(Separator);
    if labels != [] {
      JoinedOne(ButtonLine(labels));
    }
    if tail != [] {
      JoinedTwo(details.value, Separator);
    }
  }

  lemma JoinedOne(line: string)
    ensures Joined([line]) == line + NewLine
  {
    assert [line][1..] == [];
  }

  lemma JoinedTwo(line: string, last: string)
    ensures Joined([line, last]) == line + NewLine + (last + NewLine)
  {
    assert [line, last][1..] == [last];
    JoinedOne(last);
  }

  lemma JoinedHead(title: string, message: string)
    ensures Joined([Separator, title, Separator, message, Separator])
         == Separator + NewLine + (title + NewLine + (Separator + NewLine + (message + NewLine + (Separator + NewLine))))
  {
    var lines := [Separator, title, Separator, message, Separator];
    assert lines[1..] == [title, Separator, message, Separator];
    assert lines[1..][1..] == [Separator, message, Separator];
    assert lines[1..][1..][1..] == [message, Separator];
    JoinedTwo(message, Separator);
    assert Joined([Separator, message, Separator]) == Separator + NewLine + Joined([message, Separator]);
    assert Joined([title, Separator, message, Separator]) == title + NewLine + Joined([Separator, message, Separator]);
  }

  /**
   * The layout: separator, title, separator, message, separator, the button
   * line if any, separator, then the details and a last separator exactly when
   * the details are not null or whitespace.
   */
  lemma CopyLayout(title: NullableString, message: NullableString, details: NullableString, labels: seq<string>)
    ensures var lines := CopyLines(title, message, details, labels);
      var n := if labels == [] then 0 else 1;
      && |lines| == 6 + n + (if IsNullOrWhiteSpace(details) then 0 else 2)
      && lines[0] == lines[2] == lines[4] == lines[5 + n] == lines[|lines| - 1] == Separator
      && lines[1] == title.GetOr("") && lines[3] == message.GetOr("")
      && (n == 1 ==> lines[5] == ButtonLine(labels))
      && (!IsNullOrWhiteSpace(details) ==> lines[6 + n] == details.value)
  {
  }

  /** Without a button line the two separators around it end up adjacent. */
  lemma NoButtonLineForCancelTryAgainContinue(title: NullableString, message: NullableString, details: NullableString)
    ensures ButtonCaptions(CancelTryAgainContinue) == []
    ensures var lines := CopyLines(title, message, details, []);
      lines[4] == lines[5] == Separator
  {
  }

  /** The button line of up to three captions, written out. */
  lemma ButtonLineOfThree(a: string, b: string, c: string)
    ensures ButtonLine([a]) == GetString(a) + ButtonGap
    ensures ButtonLine([a, b]) == GetString(a) + ButtonGap + GetString(b) + ButtonGap
    ensures ButtonLine([a, b, c]) == GetString(a) + ButtonGap + GetString(b) + ButtonGap + GetString(c) + ButtonGap
  {
    var ga, gb, gc := GetString(a), GetString(b), GetString(c);
    assert [a][1..] == [] && [b][1..] == [] && [c][1..] == [];
    assert [a, b][1..] == [b] && [a, b, c][1..] == [b, c] && [b, c][1..] == [c];
    assert ButtonLine([a]) == ga + ButtonGap + "" == ga + ButtonGap;
    assert ButtonLine([c]) == gc + ButtonGap;
    assert ButtonLine([b]) == gb + ButtonGap;
    assert ButtonLine([a, b]) == ga + ButtonGap + (gb + ButtonGap);
    assert ButtonLine([b, c]) == gb + ButtonGap + (gc + ButtonGap);
    assert ButtonLine([a, b, c]) == ga + ButtonGap + (gb + ButtonGap + (gc + ButtonGap));
  }

  /**
   * A standard caption without an override reaches the button line as its
   * system text without the access-key markers: `&` became `_` when the
   * caption was read, and `_` is dropped here.
   */
  lemma CopiedCaption(strings: Strings.MessageBoxStrings, c: Strings.Caption, sys: Strings.Caption -> string)
    requires IsNullOrWhiteSpace(strings.Stored(c)) && c.IsStandard() && '_' !in sys(c)
    ensures GetString(strings.Get(c, sys)) == Without(sys(c), '&')
  {
    ReplaceThenDrop(sys(c), '&', '_');
  }

  /** A system text that is a name behind one access-key marker `&` gives just the name. */
  lemma MarkedSystemText(strings: Strings.MessageBoxStrings, c: Strings.Caption, sys: Strings.Caption -> string, name: string)
    requires IsNullOrWhiteSpace(strings.Stored(c)) && c.IsStandard()
    requires sys(c) == ['&'] + name && '&' !in name && '_' !in name
    ensures GetString(strings.Get(c, sys)) == name
  {
    CopiedCaption(strings, c, sys);
    WithoutAppend(['&'], name, '&');
  }

  /** With access-key system texts and no overrides, the Abort/Retry/Ignore line lists the three names. */
  lemma MarkedAbortRetryIgnore(strings: Strings.MessageBoxStrings, sys: Strings.Caption -> string, abort: string, retry: string, ignore: string)
    requires IsNullOrWhiteSpace(strings.Stored(Strings.Caption.Abort))
    requires IsNullOrWhiteSpace(strings.Stored(Strings.Caption.Retry))
    requires IsNullOrWhiteSpace(strings.Stored(Strings.Caption.Ignore))
    requires sys(Strings.Caption.Abort) == ['&'] + abort && '&' !in abort && '_' !in abort
    requires sys(Strings.Caption.Retry) == ['&'] + retry && '&' !in retry && '_' !in retry
    requires sys(Strings.Caption.Ignore) == ['&'] + ignore && '&' !in ignore && '_' !in ignore
    ensures ButtonLine(strings.Labels(ButtonCaptions(AbortRetryIgnore), sys)) == abort + ButtonGap + retry + ButtonGap + ignore + ButtonGap
  {
    var a, r, i := strings.Get(Strings.Caption.Abort, sys), strings.Get(Strings.Caption.Retry, sys), strings.Get(Strings.Caption.Ignore, sys);
    assert strings.Labels(ButtonCaptions(AbortRetryIgnore), sys) == [a, r, i];
    MarkedSystemText(strings, Strings.Caption.Abort, sys, abort);
    MarkedSystemText(strings, Strings.Caption.Retry, sys, retry);
    MarkedSystemText(strings, Strings.Caption.Ignore, sys, ignore);
    ButtonLineOfThree(a, r, i);
  }

  /** With the system texts "&Abort", "&Retry" and "&Ignore" and no overrides, the line is "Abort   Retry   Ignore   ". */
  lemma AbortRetryIgnoreLine(strings: Strings.MessageBoxStrings, sys: Strings.Caption -> string)
    requires IsNullOrWhiteSpace(strings.Stored(Strings.Caption.Abort))
    requires IsNullOrWhiteSpace(strings.Stored(Strings.Caption.Retry))
    requires IsNullOrWhiteSpace(strings.Stored(Strings.Caption.Ignore))
    requires sys(Strings.Caption.Abort) == "&Abort" && sys(Strings.Caption.Retry) == "&Retry" && sys(Strings.Caption.Ignore) == "&Ignore"
    ensures ButtonLine(strings.Labels(ButtonCaptions(AbortRetryIgnore), sys)) == "Abort   Retry   Ignore   "
  {
    AbortRetryIgnoreTexts();
    MarkedAbortRetryIgnore(strings, sys, "Abort", "Retry", "Ignore");
  }

  lemma AbortRetryIgnoreTexts()
    ensures "&Abort" == ['&'] + "Abort" && '&' !in "Abort" && '_' !in "Abort"
    ensures "&Retry" == ['&'] + "Retry" && '&' !in "Retry" && '_' !in "Retry"
    ensures "&Ignore" == ['&'] + "Ignore" && '&' !in "Ignore" && '_' !in "Ignore"
    ensures "Abort" + ButtonGap + "Retry" + ButtonGap + "Ignore" + ButtonGap == "Abort   Retry   Ignore   "
  {
  }

  /** The button line of the set, appended to `builder`; a null strings object throws when a caption is read. */
  method AppendButtons(builder: LineBuilder, buttons: MessageBoxButtons, strings: Strings.MessageBoxStrings?, sys: Strings.Caption -> string)
    returns (r: Result<LineBuilder, Exception>)
    ensures strings == null && buttons != CancelTryAgainContinue ==> r == Failure(NullReferenceException)
    ensures buttons == CancelTryAgainContinue ==> r == Success(builder)
    ensures strings != null && buttons != CancelTryAgainContinue ==>
              r == Success(builder + ButtonLines(strings.Labels(ButtonCaptions(buttons), sys)))
  {
    if buttons == CancelTryAgainContinue {
      return Success(builder);
    }
    if strings == null {
      return Failure(NullReferenceException);
    }
    var line: string;
    match buttons {
      case OK =>
        line := GetString(strings.Get(Strings.Caption.OK, sys)) + ButtonGap;
      case OKCancel =>
        line := GetString(strings.Get(Strings.Caption.OK, sys)) + ButtonGap + GetString(strings.Get(Strings.Caption.Cancel, sys)) + ButtonGap;
      case RetryCancel =>
        line := GetString(strings.Get(Strings.Caption.Retry, sys)) + ButtonGap + GetString(strings.Get(Strings.Caption.Cancel, sys)) + ButtonGap;
      case YesNo =>
        line := GetString(strings.Get(Strings.Caption.Yes, sys)) + ButtonGap + GetString(strings.Get(Strings.Caption.No, sys)) + ButtonGap;
      case YesNoCancel =>
        line := GetString(strings.Get(Strings.Caption.Yes, sys)) + ButtonGap + GetString(strings.Get(Strings.Caption.No, sys)) + ButtonGap
                + GetString(strings.Get(Strings.Caption.Cancel, sys)) + ButtonGap;
      case AbortRetryIgnore =>
        line := GetString(strings.Get(Strings.Caption.Abort, sys)) + ButtonGap + GetString(strings.Get(Strings.Caption.Retry, sys)) + ButtonGap
                + GetString(strings.Get(Strings.Caption.Ignore, sys)) + ButtonGap;
    }
    var labels := strings.Labels(ButtonCaptions(buttons), sys);
    var cs := ButtonCaptions(buttons);
    ButtonLineOfThree(strings.Get(cs[0], sys), strings.Get(cs[if |cs| > 1 then 1 else 0], sys), strings.Get(cs[|cs| - 1], sys));
    match buttons {
      case OK => assert labels == [strings.Get(cs[0], sys)];
      case OKCancel => assert labels == [strings.Get(cs[0], sys), strings.Get(cs[1], sys)];
      case RetryCancel => assert labels == [strings.Get(cs[0], sys), strings.Get(cs[1], sys)];
      case YesNo => assert labels == [strings.Get(cs[0], sys), strings.Get(cs[1], sys)];
      case YesNoCancel => assert labels == [strings.Get(cs[0], sys), strings.Get(cs[1], sys), strings.Get(cs[2], sys)];
      case AbortRetryIgnore => assert labels == [strings.Get(cs[0], sys), strings.Get(cs[1], sys), strings.Get(cs[2], sys)];
    }
    assert line == ButtonLine(labels);
    assert ButtonLines(labels) == [line];
    r := Success(AppendLine(builder, Some(line)));
  }

  /**
   * Ctrl+C with the default formatter: the text it puts on the clipboard.
   * The icon argument plays no part in it.
   */
  method Copy(title: NullableString, message: NullableString, details: NullableString, buttons: MessageBoxButtons,
              icon: MessageBoxImages, strings: Strings.MessageBoxStrings?, sys: Strings.Caption -> string)
    returns (r: Result<string, Exception>)
    ensures strings == null && buttons != CancelTryAgainContinue ==> r == Failure(NullReferenceException)
    ensures strings != null || buttons == CancelTryAgainContinue ==>
              r == Success(Joined(CopyLines(title, message, details,
                                            if buttons == CancelTryAgainContinue then [] else strings.Labels(ButtonCaptions(buttons), sys))))
  {
    var builder: LineBuilder := [];
    builder := AppendLine(builder, Some(Separator));
    builder := AppendLine(builder, title);
    builder := AppendLine(builder, Some(Separator));
    builder := AppendLine(builder, message);
    builder := AppendLine(builder, Some(Separator));
    ghost var head := [Separator, title.GetOr(""), Separator, message.GetOr(""), Separator];
    assert builder == head;
    var appended := AppendButtons(builder, buttons, strings, sys);
    if appended.Failure? {
      return Failure(appended.error);
    }
    ghost var labels := if buttons == CancelTryAgainContinue then [] else strings.Labels(ButtonCaptions(buttons), sys);
    assert labels == [] <==> buttons == CancelTryAgainContinue;
    builder := appended.value;
    assert builder == head + ButtonLines(labels);
    builder := AppendLine(builder, Some(Separator));
    ghost var body := head + ButtonLines(labels) + [Separator];
    assert builder == body;
    if !IsNullOrWhiteSpace(details) {
      builder := AppendLine(builder, details);
      builder := AppendLine(builder, Some(Separator));
      assert builder == body + [details.value, Separator];
    } else {
      assert builder == body + [];
    }
    assert builder == CopyLines(title, message, details, labels);
    r := Success(Joined(builder));
  }
}

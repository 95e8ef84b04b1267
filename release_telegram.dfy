/**
 * The Telegram release announcement: a list of message parts (header,
 * status, links, the changelog when a release file exists, footer) joined
 * with newlines. The Bot API POST is not modelled; the release file's
 * content, or its absence, is an input.
 */
module ReleaseTelegram {
  import opened Wrappers
  import opened Text
  import opened ReleaseNotes

  const ReleasesUrl := "https://github.com/FakeErrorX/ErrorX/releases/tag/"
  /** "*🎉 What's New*" */
  const WhatsNewHeading := "*\U{1F389} What's New*"
  /** "\n🔔 _Stay updated with ErrorX releases!_" */
  const Footer := "\n\U{1F514} _Stay updated with ErrorX releases!_"

  function Header(tag: string): string
  {
    (if IsStable(tag) then "\U{1F31F}" else "\U{2B50}") + " *ErrorX " + tag + "*"
  }

  function DownloadLink(tag: string): string
  {
    "\U{1F4E5} [Download Release](" + ReleasesUrl + tag + ")"
  }

  /** The parts before the changelog: header, tag line, status and links. */
  function LeadingParts(tag: string): (parts: seq<string>)
    ensures |parts| == 9 && parts[0] == Header(tag) && parts[6] == DownloadLink(tag)
  {
    var stable := IsStable(tag);
    [ Header(tag),
      "_Experience the next level of error handling_\n",
      "*\U{1F4CA} Release Status*",
      (if stable then "\U{1F7E2}" else "\U{1F7E1}") + " Channel: " + (if stable then "Stable" else "Preview"),
      "\U{1F3AF} Type: " + (if stable then "Production Ready" else "Development Build") + "\n",
      "*\U{1F517} Quick Links*",
      DownloadLink(tag),
      "\U{1F4DA} [Documentation](https://github.com/FakeErrorX/ErrorX/wiki)",
      "\U{1F41B} [Report Issues](https://github.com/FakeErrorX/ErrorX/issues)\n" ]
  }

  /**
   * None of the leading parts is the "What's New" heading or the footer:
   * the header and the download link differ from them in their first
   * character, every other part in its length.
   */
  lemma LeadingPartsAreNotHeadings(tag: string)
    ensures WhatsNewHeading !in LeadingParts(tag) && Footer !in LeadingParts(tag)
  {
    var parts := LeadingParts(tag);
    assert WhatsNewHeading[0] == '*' && |WhatsNewHeading| == 14;
    assert Footer[0] == '\n' && |Footer| == 39;
    assert parts[0][0] != '*' && parts[0][0] != '\n';
    assert |parts[1]| == 46 && |parts[2]| == 18;
    assert |parts[3]| == 17 || |parts[3]| == 18;
    assert |parts[4]| == 25 || |parts[4]| == 26;
    assert |parts[5]| == 15 && parts[6][0] != '*' && parts[6][0] != '\n';
    assert |parts[7]| == 60 && |parts[8]| == 63;
  }

  /**
   * The leading parts, then the "What's New" heading and the formatted
   * changelog as one part when there is one, then the footer.
   */
  function Assemble(leading: seq<string>, notes: Option<string>): (parts: seq<string>)
    ensures |parts| == |leading| + (if notes.Some? then 3 else 1)
    ensures parts[..|leading|] == leading && parts[|parts| - 1] == Footer
    ensures notes.Some? ==> parts[|leading|] == WhatsNewHeading && parts[|leading| + 1] == notes.value
  {
    var changelog := if notes.Some? then [WhatsNewHeading, notes.value] else [];
    var parts := leading + changelog + [Footer];
    assert parts[..|leading|] == leading;
    parts
  }

  /**
   * The full part list of `create_message`: the leading parts, then the
   * "What's New" heading and the whole formatted changelog as one part when
   * a release file exists, then the footer.
   */
  function MessageParts(tag: string, releaseFile: Option<string>): (parts: seq<string>)
    ensures |parts| == (if releaseFile.Some? then 12 else 10)
    ensures parts[..9] == LeadingParts(tag) && parts[|parts| - 1] == Footer
    ensures releaseFile.Some? ==> parts[9] == WhatsNewHeading && parts[10] == FormatNotes(releaseFile.value)
  {
    Assemble(LeadingParts(tag), if releaseFile.Some? then Some(FormatNotes(releaseFile.value)) else None)
  }

  /**
   * The header comes first and the footer last; the "What's New" heading is
   * in the message exactly when a release file exists, even an empty one.
   */
  lemma MessagePartsShape(tag: string, releaseFile: Option<string>)
    ensures var parts := MessageParts(tag, releaseFile);
      && parts[0] == Header(tag) && parts[|parts| - 1] == Footer
      && (WhatsNewHeading in parts <==> releaseFile.Some?)
  {
    var parts := MessageParts(tag, releaseFile);
    var leading := LeadingParts(tag);
    LeadingPartsAreNotHeadings(tag);
    assert WhatsNewHeading != Footer by { assert |WhatsNewHeading| == 14 && |Footer| == 39; }
    if releaseFile.None? {
      assert parts == leading + [Footer];
    } else {
      assert parts[9] == WhatsNewHeading;
    }
  }

  /** The changelog lines of the release file, stripped, each bullet re-marked, re-joined. */
  method FormatChangelog(content: string) returns (formatted: string)
    ensures formatted == FormatNotes(content)
  {
    var changelog := Strip(content);
    var formattedLines := FormatLines(Split(changelog, '\n'));
    formatted := Join(formattedLines, '\n');
  }

  /** `create_message`: the parts grown by appends, then joined with newlines. */
  method CreateMessage(tag: string, releaseFile: Option<string>) returns (message: string)
    ensures message == Join(MessageParts(tag, releaseFile), '\n')
  {
    var messageParts := LeadingParts(tag);
    if releaseFile.Some? {
      var formatted := FormatChangelog(releaseFile.value);
      messageParts := messageParts + [WhatsNewHeading, formatted];
    }
    messageParts := messageParts + [Footer];
    assert messageParts == MessageParts(tag, releaseFile);
    message := Join(messageParts, '\n');
  }

  /**
   * The message opens with the header, ends with the footer, names the tag
   * verbatim, and carries the formatted changelog unbroken (no chunking,
   * no length limit) when a release file exists.
   */
  lemma MessageContents(tag: string, releaseFile: Option<string>)
    ensures var message := Join(MessageParts(tag, releaseFile), '\n');
      && |message| >= |Header(tag)| && message[..|Header(tag)|] == Header(tag)
      && |message| >= |Footer| && message[|message| - |Footer|..] == Footer
      && Contains(message, tag)
      && Contains(message, DownloadLink(tag))
      && (releaseFile.Some? ==> Contains(message, FormatNotes(releaseFile.value)))
  {
    var parts := MessageParts(tag, releaseFile);
    var message := Join(parts, '\n');
    MessagePartsShape(tag, releaseFile);
    JoinEndsWithLast(parts, '\n');
    JoinContainsPart(parts, '\n', 6);
    if releaseFile.Some? {
      JoinContainsPart(parts, '\n', 10);
    }
    HeaderNamesTag(message, tag);
  }

  /** A text that opens with the header names the tag, after the star and " *ErrorX ". */
  lemma HeaderNamesTag(message: string, tag: string)
    requires |message| >= |Header(tag)| && message[..|Header(tag)|] == Header(tag)
    ensures Contains(message, tag)
  {
    var star := if IsStable(tag) then "\U{1F31F}" else "\U{2B50}";
    var header := Header(tag);
    var at := |star + " *ErrorX "|;
    assert header == (star + " *ErrorX ") + tag + "*";
    assert header[at..at + |tag|] == tag;
    assert message[at..at + |tag|] == message[..|header|][at..at + |tag|];
    assert OccursAt(message, tag, at);
  }
}

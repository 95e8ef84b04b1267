/**
 * The Discord release announcement: an embed whose title, colour and
 * footer follow the stable / pre-release decision, three fixed fields, and
 * the formatted changelog cut into 1024-character fields. The webhook POST
 * is not modelled; the release file's content (or its absence) and the
 * timestamp are inputs.
 */
module ReleaseDiscord {
  import opened Wrappers
  import opened Text
  import opened ReleaseNotes

  const ReleasesUrl := "https://github.com/FakeErrorX/ErrorX/releases/tag/"
  const IconUrl := "https://raw.githubusercontent.com/FakeErrorX/ErrorX/main/assets/icon/icon.png"
  const Description := "Experience the next level of error handling"
  const StableColor := 0x58b9ff
  const DevelopmentColor := 0xf1c40f
  /** "🎉 What's New" */
  const WhatsNewName := "\U{1F389} What's New"
  /** "📝 Changelog (continued)" */
  const ContinuedName := "\U{1F4DD} Changelog (continued)"
  /** A zero-width space: Discord's way of drawing an empty field. */
  const Blank := "\U{200B}"

  datatype EmbedField = EmbedField(name: string, value: string, inline: bool)

  datatype Embed = Embed(
    title: string,
    description: string,
    url: string,
    color: int,
    timestamp: string,
    fields: seq<EmbedField>,
    thumbnailUrl: string,
    footerText: string,
    footerIconUrl: string)

  /** The notes: empty without a release file, else the formatted changelog. */
  function ReleaseNotesText(releaseFile: Option<string>): string
  {
    if releaseFile.None? then "" else FormatNotes(releaseFile.value)
  }

  /**
   * Release Status, Quick Links and a blank spacer, all inline; the
   * download link in Quick Links carries the tag verbatim.
   */
  function FixedFields(tag: string): (fields: seq<EmbedField>)
    ensures |fields| == 3 && fields[0].inline && fields[1].inline && fields[2].inline
    ensures fields[0].name == StatusName && fields[1].name == LinksName
    ensures fields[2] == EmbedField(Blank, Blank, true)
    ensures Contains(fields[1].value, tag)
  {
    QuickLinksNameTag(tag);
    [ EmbedField(StatusName, StatusValue(IsStable(tag)), true),
      EmbedField(LinksName, QuickLinks(tag), true),
      EmbedField(Blank, Blank, true) ]
  }

  /** "📊 Release Status" */
  const StatusName := "\U{1F4CA} Release Status"
  /** "🔗 Quick Links" */
  const LinksName := "\U{1F517} Quick Links"

  /** The Release Status value: the release type, then the channel. */
  function StatusValue(stable: bool): string
  {
    (if stable then "\U{1F3AF} Production Ready" else "\U{1F527} Development Build")
    + "\n" + (if stable then "\U{1F7E2} Stable Channel" else "\U{1F7E1} Preview Channel")
  }

  /** The Quick Links text before the tag: the download link's label and the releases URL. */
  const DownloadPrefix := "[\U{1F4E5} Download Release](" + ReleasesUrl
  /** The Quick Links text after the tag: the documentation and issues links. */
  const OtherLinks := ")\n"
    + "[\U{1F4DA} Documentation](https://github.com/FakeErrorX/ErrorX/wiki)\n"
    + "[\U{1F41B} Report Issues](https://github.com/FakeErrorX/ErrorX/issues)"

  /** The Quick Links value: download, documentation and issues links, one per line. */
  function QuickLinks(tag: string): string
  {
    DownloadPrefix + tag + OtherLinks
  }

  /** The download link names the tag verbatim, after the link text and the releases URL. */
  lemma QuickLinksNameTag(tag: string)
    ensures Contains(QuickLinks(tag), tag)
  {
    var links := QuickLinks(tag);
    assert links[|DownloadPrefix|..|DownloadPrefix| + |tag|] == tag;
    assert OccursAt(links, tag, |DownloadPrefix|);
  }

  /** The values of the changelog fields, run together. */
  function ChangelogText(fields: seq<EmbedField>): string
  {
    if |fields| == 0 then "" else fields[0].value + ChangelogText(fields[1..])
  }

  /** Read and format the changelog, or nothing when there is no release file. */
  method ReadReleaseNotes(releaseFile: Option<string>) returns (releaseNotes: string)
    ensures releaseNotes == ReleaseNotesText(releaseFile)
  {
    releaseNotes := "";
    if releaseFile.Some? {
      var changelog := Strip(releaseFile.value);
      var formattedLines := FormatLines(Split(changelog, '\n'));
      assert formattedLines == FormatAll(Split(changelog, '\n'));
      releaseNotes := Join(formattedLines, '\n');
    }
  }

  /** The changelog loop: one field per chunk, appended in order after `fields`. */
  method AppendChangelog(fields: seq<EmbedField>, releaseNotes: string) returns (result: seq<EmbedField>)
    ensures |result| == |fields| + |Chunks(releaseNotes)| && result[..|fields|] == fields
    ensures forall k :: 0 <= k < |result| - |fields| ==>
              result[|fields| + k] == EmbedField(if k == 0 then WhatsNewName else ContinuedName, Chunks(releaseNotes)[k], false)
    ensures ChangelogText(result[|fields|..]) == releaseNotes
  {
    result := fields;
    var chunks: seq<string> := [];
    if releaseNotes != "" {
      chunks := Chunks(releaseNotes);
      for i := 0 to |chunks|
        invariant |result| == |fields| + i && result[..|fields|] == fields
        invariant forall k :: 0 <= k < i ==>
                    result[|fields| + k] == EmbedField(if k == 0 then WhatsNewName else ContinuedName, chunks[k], false)
      {
        result := result + [EmbedField(if i == 0 then WhatsNewName else ContinuedName, chunks[i], false)];
      }
    }
    assert chunks == Chunks(releaseNotes);
    ChangelogFieldsHoldChunks(result[|fields|..], chunks);
    ChunksConcat(releaseNotes);
  }

  /** The release link in the embed's URL carries the tag verbatim. */
  lemma TagInLinks(tag: string)
    ensures Contains(ReleasesUrl + tag, tag)
  {
    assert OccursAt(ReleasesUrl + tag, tag, |ReleasesUrl|);
  }

  method CreateEmbed(tag: string, releaseFile: Option<string>, timestamp: string) returns (embed: Embed)
    ensures EmbedFor(embed, tag, ReleaseNotesText(releaseFile), timestamp)
    ensures ReleaseNotesText(releaseFile) == "" ==> |embed.fields| == 3
  {
    var releaseNotes := ReadReleaseNotes(releaseFile);
    embed := BuildEmbed(tag, releaseNotes, timestamp);
  }

  /**
   * What the announcement promises: title, colour and footer follow the
   * stable / pre-release decision, both release links carry the tag, the
   * three fixed fields come first, then one field per 1024-character chunk
   * of the notes, in order, holding exactly the notes.
   */
  ghost predicate EmbedFor(embed: Embed, tag: string, releaseNotes: string, timestamp: string)
  {
    && embed.title == (if IsStable(tag) then "\U{1F31F}" else "\U{2B50}") + " ErrorX " + tag
    && embed.description == Description
    && embed.thumbnailUrl == IconUrl && embed.footerIconUrl == IconUrl
    && embed.color == (if IsStable(tag) then StableColor else DevelopmentColor)
    && embed.footerText == (if IsStable(tag) then "Stable" else "Development") + " Release \U{2022} ErrorX Team"
    && embed.url == ReleasesUrl + tag && Contains(embed.url, tag)
    && embed.timestamp == timestamp
    && |embed.fields| >= 3 && embed.fields[..3] == FixedFields(tag)
    && Contains(embed.fields[1].value, tag)
    && |embed.fields| == 3 + |Chunks(releaseNotes)|
    && (forall k :: 0 <= k < |embed.fields| - 3 ==>
          embed.fields[3 + k] == EmbedField(if k == 0 then WhatsNewName else ContinuedName, Chunks(releaseNotes)[k], false))
    && ChangelogText(embed.fields[3..]) == releaseNotes
  }

  /** `create_embed` once the notes are read. */
  method BuildEmbed(tag: string, releaseNotes: string, timestamp: string) returns (embed: Embed)
    ensures EmbedFor(embed, tag, releaseNotes, timestamp)
  {
    var stable := IsStable(tag);
    var fixed := FixedFields(tag);
    var fields: seq<EmbedField> := [];
    fields := fields + [fixed[0]];
    fields := fields + [fixed[1]];
    fields := fields + [fixed[2]];
    assert fields == fixed;
    fields := AppendChangelog(fields, releaseNotes);
    embed := Embed(
      (if stable then "\U{1F31F}" else "\U{2B50}") + " ErrorX " + tag,
      Description,
      ReleasesUrl + tag,
      if stable then StableColor else DevelopmentColor,
      timestamp,
      fields,
      IconUrl,
      (if stable then "Stable" else "Development") + " Release \U{2022} ErrorX Team",
      IconUrl);
    TagInLinks(tag);
  }

  lemma {:induction false} ChangelogFieldsHoldChunks(fields: seq<EmbedField>, chunks: seq<string>)
    requires |fields| == |chunks|
    requires forall k :: 0 <= k < |fields| ==> fields[k].value == chunks[k]
    ensures ChangelogText(fields) == Concat(chunks)
    decreases |fields|
  {
    if |fields| > 0 {
      ChangelogFieldsHoldChunks(fields[1..], chunks[1..]);
    }
  }
}

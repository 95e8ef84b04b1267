/**
 * What the Discord and Telegram release scripts share: the stable /
 * pre-release decision from the tag, the changelog bullet rewrite, and (for
 * Discord) cutting the notes into 1024-character pieces.
 */
module ReleaseNotes {
  import opened Wrappers
  import opened Text

  const Bullet := "- "
  /** "💫 " */
  const Sparkles := "\U{1F4AB} "
  /** The longest value Discord accepts in an embed field. */
  const ChunkSize := 1024

  /** A release is stable when its tag carries no pre-release suffix. */
  function IsStable(tag: string): (stable: bool)
    ensures stable <==> forall i :: 0 <= i < |tag| ==> tag[i] != '-'
  {
    '-' !in tag
  }

  predicate IsBullet(line: string)
  {
    |line| >= |Bullet| && line[..|Bullet|] == Bullet
  }

  function FormatLine(line: string): string
  {
    if IsBullet(line) then Sparkles + line[|Bullet|..] else line
  }

  function FormatAll(lines: seq<string>): seq<string>
  {
    seq(|lines|, i requires 0 <= i < |lines| => FormatLine(lines[i]))
  }

  /** The changelog loop: a "- " bullet becomes "💫 "; every other line is kept; one line out per line in. */
  method FormatLines(lines: seq<string>) returns (formatted: seq<string>)
    ensures |formatted| == |lines|
    ensures forall i :: 0 <= i < |lines| && IsBullet(lines[i]) ==> formatted[i] == Sparkles + lines[i][2..]
    ensures forall i :: 0 <= i < |lines| && !IsBullet(lines[i]) ==> formatted[i] == lines[i]
    ensures formatted == FormatAll(lines)
  {
    formatted := [];
    for i := 0 to |lines|
      invariant |formatted| == i
      invariant forall k :: 0 <= k < i ==> formatted[k] == FormatLine(lines[k])
    {
      if IsBullet(lines[i]) {
        formatted := formatted + [Sparkles + lines[i][2..]];
      } else {
        formatted := formatted + [lines[i]];
      }
    }
    assert forall k :: 0 <= k < |lines| ==> formatted[k] == FormatAll(lines)[k];
  }

  /**
   * `'\n'.join(formatted lines of content.strip().split('\n'))`. Read back
   * line by line, the notes are the stripped changelog's lines, each
   * rewritten on its own: the line count is kept, bullets gain the sparkles
   * and the other lines are unchanged.
   */
  function FormatNotes(content: string): (notes: string)
    ensures Split(notes, '\n') == FormatAll(Split(Strip(content), '\n'))
    ensures |Split(notes, '\n')| == |Split(Strip(content), '\n')|
  {
    var lines := Split(Strip(content), '\n');
    FormatAllKeepsLines(lines);
    SplitJoin(FormatAll(lines), '\n');
    Join(FormatAll(lines), '\n')
  }

  /** Rewriting a line adds no line break. */
  lemma FormatAllKeepsLines(lines: seq<string>)
    requires forall i :: 0 <= i < |lines| ==> '\n' !in lines[i]
    ensures forall i :: 0 <= i < |lines| ==> '\n' !in FormatAll(lines)[i]
  {
    forall i | 0 <= i < |lines|
      ensures '\n' !in FormatAll(lines)[i]
    {
      if IsBullet(lines[i]) {
        assert '\n' !in Sparkles;
        assert forall c :: c in lines[i][2..] ==> c in lines[i];
      }
    }
  }

  function Min(a: int, b: int): int
  {
    if a < b then a else b
  }

  /** `[s[i:i+1024] for i in range(0, len(s), 1024)]`. */
  function Chunks(s: string): (chunks: seq<string>)
    ensures forall i :: 0 <= i < |chunks| ==> 0 < |chunks[i]| <= ChunkSize
    ensures forall i :: 0 <= i < |chunks| - 1 ==> |chunks[i]| == ChunkSize
    // as many pieces as it takes, and no more: ceil(|s| / 1024)
    ensures |s| <= |chunks| * ChunkSize < |s| + ChunkSize
  {
    seq((|s| + 1023) / 1024, i requires 0 <= i < (|s| + 1023) / 1024 => s[i * 1024..Min(i * 1024 + 1024, |s|)])
  }

  /** The pieces run into each other in order. */
  function Concat(pieces: seq<string>): string
  {
    if |pieces| == 0 then "" else pieces[0] + Concat(pieces[1..])
  }

  /** Chunking loses and adds nothing: the pieces concatenate back to the notes. */
  lemma {:induction false} ChunksConcat(s: string)
    ensures Concat(Chunks(s)) == s
    decreases |s|
  {
    var chunks := Chunks(s);
    if |s| == 0 {
    } else if |s| <= ChunkSize {
      assert |chunks| == 1 && chunks[0] == s[0..|s|] == s;
      assert chunks[1..] == [];
    } else {
      var rest := Chunks(s[1024..]);
      assert |chunks| == 1 + |rest|;
      forall i | 0 <= i < |rest|
        ensures chunks[i + 1] == rest[i]
      {
        assert s[(i + 1) * 1024..Min((i + 1) * 1024 + 1024, |s|)]
            == s[1024..][i * 1024..Min(i * 1024 + 1024, |s| - 1024)];
      }
      assert chunks[1..] == rest;
      ChunksConcat(s[1024..]);
      assert s == s[..1024] + s[1024..];
    }
  }
}

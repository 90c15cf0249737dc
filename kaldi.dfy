// datagrowth/resources/shell/kaldi/nl.py and kaldi/aspire.py: how the two
// Kaldi speech recognition resources clean their output and pick the
// transcript out of it. Both walk the output line by line with a flag that
// some lines switch on and others switch off; `InTranscript` is that flag,
// defined once for both, and `InTranscriptMeans` says what it amounts to.

module Kaldi {
  import opened Wrappers
  import opened Text

  const TranscriptionStart := "=== TRANSCRIPTION ==="
  const TranscriptionEnd := "=== END TRANSCRIPTION ==="
  /** The prefix of an Aspire transcript line. */
  const UtteranceMarker := "utterance-id1 "

  datatype Recognizer = DutchNL | EnglishAspire

  /** A line that switches the transcript flag on. */
  predicate IsOn(rec: Recognizer, line: string)
  {
    match rec
    case DutchNL => line == TranscriptionStart
    case EnglishAspire => StartsWith(line, UtteranceMarker)
  }

  /** A line that switches the transcript flag off. */
  predicate IsOff(rec: Recognizer, line: string)
  {
    match rec
    case DutchNL => line == TranscriptionEnd
    case EnglishAspire => StartsWith(line, "LOG")
  }

  lemma OnIsNotOff(rec: Recognizer, line: string)
    ensures !(IsOn(rec, line) && IsOff(rec, line))
  {
    if rec == EnglishAspire && IsOn(rec, line) {
      assert line[0] == 'u';
    }
  }

  /** The flag as it stands when line `k` comes up. */
  function InTranscript(rec: Recognizer, lines: seq<string>, k: nat): bool
    requires k <= |lines|
  {
    if k == 0 then false
    else if IsOn(rec, lines[k - 1]) then true
    else if IsOff(rec, lines[k - 1]) then false
    else InTranscript(rec, lines, k - 1)
  }

  /** The flag is up exactly when some earlier line switched it on and no
      line since switched it off. */
  lemma {:induction false} InTranscriptMeans(rec: Recognizer, lines: seq<string>, k: nat)
    requires k <= |lines|
    ensures InTranscript(rec, lines, k) <==>
      exists j :: 0 <= j < k && IsOn(rec, lines[j]) && forall m :: j < m < k ==> !IsOff(rec, lines[m])
  {
    if k > 0 {
      InTranscriptMeans(rec, lines, k - 1);
      OnIsNotOff(rec, lines[k - 1]);
      if !IsOn(rec, lines[k - 1]) && !IsOff(rec, lines[k - 1]) {
        if exists j :: 0 <= j < k && IsOn(rec, lines[j]) && forall m :: j < m < k ==> !IsOff(rec, lines[m]) {
          var j :| 0 <= j < k && IsOn(rec, lines[j]) && forall m :: j < m < k ==> !IsOff(rec, lines[m]);
          assert j < k - 1;
        }
      }
    }
  }

  /** What line `k` adds to the transcript: Kaldi NL keeps the lines while
      the flag is up, never the markers; Aspire keeps an utterance line's
      text after the marker and the lines while the flag is up, never a LOG
      line. */
  function Contribution(rec: Recognizer, lines: seq<string>, k: nat): seq<string>
    requires k < |lines|
  {
    var line := lines[k];
    match rec
    case DutchNL =>
      if IsOn(rec, line) || IsOff(rec, line) || !InTranscript(rec, lines, k) then [] else [line]
    case EnglishAspire =>
      if IsOn(rec, line) then [line[|UtteranceMarker|..]]
      else if IsOff(rec, line) || !InTranscript(rec, lines, k) then []
      else [line]
  }

  /** The transcript lines from the first `n` lines. */
  function KeptLines(rec: Recognizer, lines: seq<string>, n: nat): seq<string>
    requires n <= |lines|
  {
    if n == 0 then [] else KeptLines(rec, lines, n - 1) + Contribution(rec, lines, n - 1)
  }

  /** A Kaldi NL line is kept exactly when it lies strictly between a start
      marker and the next end marker. */
  lemma KeptLineNL(lines: seq<string>, k: nat)
    requires k < |lines|
    ensures Contribution(DutchNL, lines, k) != [] <==>
      lines[k] != TranscriptionStart && lines[k] != TranscriptionEnd
      && exists j :: 0 <= j < k && lines[j] == TranscriptionStart && forall m :: j < m < k ==> lines[m] != TranscriptionEnd
  {
    InTranscriptMeans(DutchNL, lines, k);
  }

  // ------------------------------------------------------------- Kaldi NL

  /** A progress segment of Kaldi NL's output. */
  predicate IsProgress(segment: string)
  {
    StartsWith(segment, "Rescoring..") || StartsWith(segment, "[") || StartsWith(segment, "NNet3 Decoding")
  }

  function KeepOutput(segments: seq<string>): (r: seq<string>)
    ensures forall k :: 0 <= k < |r| ==> r[k] in segments && !IsProgress(r[k])
  {
    if segments == [] then []
    else (if IsProgress(segments[0]) then [] else [segments[0]]) + KeepOutput(segments[1..])
  }

  function Concat(parts: seq<string>): string
  {
    if parts == [] then "" else parts[0] + Concat(parts[1..])
  }

  lemma {:induction false} ConcatWithout(parts: seq<string>, c: char)
    requires forall k :: 0 <= k < |parts| ==> c !in parts[k]
    ensures c !in Concat(parts)
  {
    if parts != [] {
      ConcatWithout(parts[1..], c);
    }
  }

  /** `KaldiNLResource.clean_stdout` after the base class cleaning: the
      output cut at carriage returns, the progress segments dropped, the rest
      glued together. */
  function CleanStdoutNL(stdout: string): (r: string)
    ensures '\r' !in r
  {
    var segments := Split(stdout, '\r');
    var kept := KeepOutput(segments);
    ConcatWithout(kept, '\r');
    Concat(kept)
  }

  /** Output without carriage returns or progress comes through unchanged. */
  lemma CleanStdoutPlain(stdout: string)
    requires '\r' !in stdout && !IsProgress(stdout)
    ensures CleanStdoutNL(stdout) == stdout
  {
    assert Split(stdout, '\r') == [stdout];
    assert [stdout][1..] == [];
    assert KeepOutput([stdout]) == [stdout];
    assert Concat([stdout]) == stdout + Concat([]);
  }

  /** The loop of `KaldiNLResource.transform` over the output lines. */
  method TranscriptLinesNL(lines: seq<string>) returns (out: seq<string>)
    ensures out == KeptLines(DutchNL, lines, |lines|)
  {
    var isTranscript := false;
    out := [];
    for i := 0 to |lines|
      invariant isTranscript == InTranscript(DutchNL, lines, i)
      invariant out == KeptLines(DutchNL, lines, i)
    {
      var line := lines[i];
      if line == TranscriptionStart {
        isTranscript := true;
      } else if line == TranscriptionEnd {
        isTranscript := false;
      } else if isTranscript {
        out := out + [line];
      }
    }
  }

  /** The pattern ` \(.+\)$` matches line from `i` on: a blank, an opening
      parenthesis, at least one character, and a closing parenthesis that
      ends the line. */
  predicate ParenTailAt(line: string, i: nat)
  {
    i + 4 <= |line| && line[i] == ' ' && line[i + 1] == '(' && line[|line| - 1] == ')'
  }

  function StripParenFrom(line: string, i: nat): (r: string)
    requires forall j :: 0 <= j < i ==> !ParenTailAt(line, j)
    ensures (forall j :: 0 <= j < |line| ==> !ParenTailAt(line, j)) <==> r == line
    ensures r != line ==> exists j: nat :: ParenTailAt(line, j) && r == line[..j] && forall m :: 0 <= m < j ==> !ParenTailAt(line, m)
    decreases |line| - i
  {
    if i + 4 > |line| then line
    else if ParenTailAt(line, i) then line[..i]
    else StripParenFrom(line, i + 1)
  }

  /** The substitution of ` \(.+\)$` by "" on one line: everything from the
      leftmost match on is cut off. */
  function StripParen(line: string): (r: string)
  {
    StripParenFrom(line, 0)
  }

  function StripParenAll(lines: seq<string>): (r: seq<string>)
    ensures |r| == |lines| && forall k :: 0 <= k < |lines| ==> r[k] == StripParen(lines[k])
  {
    seq(|lines|, k requires 0 <= k < |lines| => StripParen(lines[k]))
  }

  /** The transcript Kaldi NL's output holds. */
  function TranscriptNL(stdout: string): string
  {
    var lines := Split(stdout, '\n');
    Join(StripParenAll(KeptLines(DutchNL, lines, |lines|)), "\n")
  }

  /** `KaldiNLResource.transform`: nothing for empty output; otherwise the
      transcript lines with their trailing parenthesised remark cut off,
      joined by newlines. In multiline mode the pattern works line by line,
      so it is applied to each line before joining. */
  method TransformNL(stdout: string) returns (r: Option<string>)
    ensures stdout == "" <==> r.None?
    ensures r.Some? ==> r.value == TranscriptNL(stdout)
  {
    if stdout == "" {
      return None;
    }
    var out := TranscriptLinesNL(Split(stdout, '\n'));
    r := Some(Join(StripParenAll(out), "\n"));
  }

  // --------------------------------------------------------- Kaldi Aspire

  /** The loop of `KaldiAspireResource.transform` over the output lines. */
  method TranscriptLinesAspire(lines: seq<string>) returns (out: seq<string>)
    ensures out == KeptLines(EnglishAspire, lines, |lines|)
  {
    var isTranscript := false;
    out := [];
    for i := 0 to |lines|
      invariant isTranscript == InTranscript(EnglishAspire, lines, i)
      invariant out == KeptLines(EnglishAspire, lines, i)
    {
      var line := lines[i];
      if StartsWith(line, UtteranceMarker) {
        isTranscript := true;
        out := out + [line[|UtteranceMarker|..]];
      } else if StartsWith(line, "LOG") {
        isTranscript := false;
      } else if isTranscript {
        out := out + [line];
      }
    }
  }

  /** The noise markers removed from the Aspire transcript, in order. */
  function RemoveNoise(transcript: string): string
  {
    ReplaceAll(ReplaceAll(ReplaceAll(transcript, "<unk>", ""), "mm", ""), "[noise]", "")
  }

  /** A transcript without noise markers is left as it is. */
  lemma RemoveNoiseClean(transcript: string)
    requires !Contains(transcript, "<unk>") && !Contains(transcript, "mm") && !Contains(transcript, "[noise]")
    ensures RemoveNoise(transcript) == transcript
  {
    ReplaceAllAbsent(transcript, "<unk>", "");
    ReplaceAllAbsent(transcript, "mm", "");
    ReplaceAllAbsent(transcript, "[noise]", "");
  }

  /** The transcript Kaldi Aspire's output holds. */
  function TranscriptAspire(stdout: string): string
  {
    var lines := Split(stdout, '\n');
    RemoveNoise(Join(KeptLines(EnglishAspire, lines, |lines|), "\n"))
  }

  /** `KaldiAspireResource.transform`: nothing for empty output; otherwise
      the transcript lines joined by newlines, noise markers removed. */
  method TransformAspire(stdout: string) returns (r: Option<string>)
    ensures stdout == "" <==> r.None?
    ensures r.Some? ==> r.value == TranscriptAspire(stdout)
  {
    if stdout == "" {
      return None;
    }
    var out := TranscriptLinesAspire(Split(stdout, '\n'));
    r := Some(RemoveNoise(Join(out, "\n")));
  }
}

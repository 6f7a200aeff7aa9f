/**
 * The pieces of logic in `App.tsx`: the cleaner applied to every transcript
 * (`response.replaceAll(/\(.+\)/g, '')`), the conversation update that follows
 * it, the guard that decides whether to ask the assistant, and the choice of
 * a path from what the file dialog returns.
 */
module App {
  import opened Wrappers

  // ---------------------------------------------------------------------------
  // The transcript cleaner /\(.+\)/g

  /**
   * The line terminators of ECMA-262 (section 12.3, LineTerminator): LF, CR,
   * LINE SEPARATOR and PARAGRAPH SEPARATOR. Without the `s` flag the pattern
   * `.` matches every other character.
   */
  predicate IsLineTerminator(c: char)
  {
    c == '\n' || c == '\r' || c == '\U{2028}' || c == '\U{2029}'
  }

  /** The length of the first line of `t`: the index of its first line terminator, or |t|. */
  function FirstLineEnd(t: string): (n: nat)
    ensures n <= |t|
    ensures forall i :: 0 <= i < n ==> !IsLineTerminator(t[i])
    ensures n < |t| ==> IsLineTerminator(t[n])
    decreases |t|
  {
    if t == [] || IsLineTerminator(t[0]) then 0 else 1 + FirstLineEnd(t[1..])
  }

  /**
   * The index of the last ')' on the first line of `t`: where the greedy `.+`
   * of the pattern, having run to the end of the line, backtracks to.
   */
  function LastCloseInLine(t: string): (r: Option<nat>)
    ensures r.Some? ==> r.value < FirstLineEnd(t) && t[r.value] == ')'
    ensures r.Some? ==> forall i :: r.value < i < FirstLineEnd(t) ==> t[i] != ')'
    ensures r.None? ==> forall i :: 0 <= i < FirstLineEnd(t) ==> t[i] != ')'
    decreases |t|
  {
    if t == [] || IsLineTerminator(t[0]) then None
    else
      match LastCloseInLine(t[1..])
      case Some(k) => Some(k + 1)
      case None => if t[0] == ')' then Some(0) else None
  }

  /**
   * `s[0..j]` is a match of /\(.+\)/: an opening parenthesis, at least one
   * character that is not a line terminator, and a closing parenthesis at `j`.
   */
  ghost predicate MatchesUpTo(s: string, j: int)
  {
    && 2 <= j < |s| && s[0] == '(' && s[j] == ')'
    && forall i :: 1 <= i < j ==> !IsLineTerminator(s[i])
  }

  /**
   * The match of /\(.+\)/ at the start of `s`, given by the index of its
   * closing parenthesis: there is one exactly when some span is a match, and
   * then it is the longest one, as greedy backtracking finds.
   */
  function MatchAt(s: string): (r: Option<nat>)
    ensures r.Some? ==> MatchesUpTo(s, r.value)
    ensures r.Some? ==> forall j :: MatchesUpTo(s, j) ==> j <= r.value
    ensures r.None? ==> forall j :: !MatchesUpTo(s, j)
  {
    if |s| >= 2 && s[0] == '(' && !IsLineTerminator(s[1]) then
      var t := s[2..];
      var n := FirstLineEnd(t);
      match LastCloseInLine(t)
      case Some(k) =>
        assert forall i :: 2 <= i < k + 2 ==> !IsLineTerminator(s[i]) by {
          forall i | 2 <= i < k + 2 ensures !IsLineTerminator(s[i]) {
            assert s[i] == t[i - 2];
          }
        }
        forall j | MatchesUpTo(s, j) ensures j <= k + 2 {
          assert s[j] == t[j - 2];
        }
        Some(k + 2)
      case None =>
        None
    else
      None
  }

  /**
   * `s.replaceAll(/\(.+\)/g, '')`: scanning from the left, each match found
   * is dropped and the scan goes on after it; a character where no match
   * starts is kept.
   */
  function StripParenthesized(s: string): (r: string)
    ensures |r| <= |s|
    decreases |s|
  {
    if s == [] then []
    else
      match MatchAt(s)
      case Some(j) => StripParenthesized(s[j + 1..])
      case None => [s[0]] + StripParenthesized(s[1..])
  }

  /** `a` is `b` with some characters deleted. */
  predicate IsSubsequence(a: string, b: string)
    decreases |b|
  {
    a == [] ||
    (b != [] && ((a[0] == b[0] && IsSubsequence(a[1..], b[1..])) || IsSubsequence(a, b[1..])))
  }

  lemma {:induction false} SubsequenceOfSuffix(a: string, b: string, k: nat)
    requires k <= |b| && IsSubsequence(a, b[k..])
    ensures IsSubsequence(a, b)
    decreases k
  {
    if k > 0 {
      assert b[k - 1..][1..] == b[k..];
      SubsequenceOfSuffix(a, b, k - 1);
    }
  }

  /** The cleaned transcript is the transcript with some characters deleted. */
  lemma {:induction false} StripIsSubsequence(s: string)
    ensures IsSubsequence(StripParenthesized(s), s)
    decreases |s|
  {
    if s != [] {
      match MatchAt(s)
      case Some(j) =>
        StripIsSubsequence(s[j + 1..]);
        SubsequenceOfSuffix(StripParenthesized(s), s, j + 1);
      case None =>
        StripIsSubsequence(s[1..]);
        var r := StripParenthesized(s);
        assert r[0] == s[0] && r[1..] == StripParenthesized(s[1..]);
    }
  }

  /** No match starts anywhere in `s`. */
  predicate NoMatch(s: string)
    decreases |s|
  {
    s == [] || (MatchAt(s).None? && NoMatch(s[1..]))
  }

  /** A transcript without an opening parenthesis has no match. */
  lemma {:induction false} NoOpenParenNoMatch(s: string)
    requires forall i :: 0 <= i < |s| ==> s[i] != '('
    ensures NoMatch(s)
    decreases |s|
  {
    if s != [] {
      NoOpenParenNoMatch(s[1..]);
    }
  }

  /** Cleaning leaves a transcript unchanged exactly when no match starts anywhere in it. */
  lemma {:induction false} StripFixedPoint(s: string)
    ensures StripParenthesized(s) == s <==> NoMatch(s)
    decreases |s|
  {
    if s != [] {
      StripFixedPoint(s[1..]);
      match MatchAt(s)
      case Some(j) =>
        assert |StripParenthesized(s)| < |s|;
      case None =>
        if StripParenthesized(s) == s {
          assert StripParenthesized(s)[1..] == StripParenthesized(s[1..]);
        }
    }
  }

  /** A transcript that contains no '(' comes back unchanged. */
  lemma NoOpenParenUnchanged(s: string)
    requires forall i :: 0 <= i < |s| ==> s[i] != '('
    ensures StripParenthesized(s) == s
  {
    NoOpenParenNoMatch(s);
    StripFixedPoint(s);
  }

  /** If the first line of `t` has no ')', neither has the first line of its cleaned form. */
  lemma {:induction false} StripKeepsFirstLineClosed(t: string)
    requires LastCloseInLine(t).None?
    ensures LastCloseInLine(StripParenthesized(t)).None?
    decreases |t|
  {
    if t != [] && !IsLineTerminator(t[0]) {
      if |t| >= 2 && !IsLineTerminator(t[1]) {
        assert LastCloseInLine(t[1..]) == None;
        assert t[1..][1..] == t[2..];
      }
      assert MatchAt(t).None?;
      StripKeepsFirstLineClosed(t[1..]);
      assert StripParenthesized(t) == [t[0]] + StripParenthesized(t[1..]);
      assert ([t[0]] + StripParenthesized(t[1..]))[1..] == StripParenthesized(t[1..]);
    } else if t != [] {
      assert MatchAt(t).None?;
      assert StripParenthesized(t)[0] == t[0];
    }
  }

  /** An opening parenthesis followed by a first line without ')' starts no match. */
  lemma OpenBeforeClosedLineNoMatch(r: string)
    requires r == [] || IsLineTerminator(r[0]) || LastCloseInLine(r).None?
    ensures MatchAt(['('] + r).None?
  {
    var x := ['('] + r;
    if |x| >= 2 && !IsLineTerminator(x[1]) {
      assert x[1..] == r;
      assert x[2..] == r[1..];
      assert LastCloseInLine(r) == None;
    }
  }

  /** What cleaning leaves has no match left in it. */
  lemma {:induction false} StripLeavesNoMatch(s: string)
    ensures NoMatch(StripParenthesized(s))
    decreases |s|
  {
    if s != [] {
      match MatchAt(s)
      case Some(j) =>
        StripLeavesNoMatch(s[j + 1..]);
      case None =>
        var rest := StripParenthesized(s[1..]);
        StripLeavesNoMatch(s[1..]);
        var x := [s[0]] + rest;
        assert x[1..] == rest;
        if s[0] == '(' {
          if |s| == 1 {
            assert rest == [];
          } else if IsLineTerminator(s[1]) {
            assert MatchAt(s[1..]).None?;
            assert rest[0] == s[1];
            OpenBeforeClosedLineNoMatch(rest);
          } else {
            assert LastCloseInLine(s[2..]).None?;
            if s[1] == ')' {
              assert MatchAt(s[1..]).None?;
              assert s[1..][1..] == s[2..];
              assert rest == [')'] + StripParenthesized(s[2..]);
              StripKeepsFirstLineClosed(s[2..]);
              assert rest[1..] == StripParenthesized(s[2..]);
              assert MatchAt(x).None?;
            } else {
              assert s[1..][1..] == s[2..];
              assert LastCloseInLine(s[1..]).None?;
              StripKeepsFirstLineClosed(s[1..]);
              OpenBeforeClosedLineNoMatch(rest);
            }
          }
        }
    }
  }

  /** Cleaning twice is cleaning once. */
  lemma StripIsIdempotent(s: string)
    ensures StripParenthesized(StripParenthesized(s)) == StripParenthesized(s)
  {
    StripLeavesNoMatch(s);
    StripFixedPoint(StripParenthesized(s));
  }

  /** A line terminator ends the first line, so what follows it cannot change a match before it. */
  lemma MatchStopsAtLineTerminator(a: string, c: char, b: string)
    requires IsLineTerminator(c)
    ensures MatchAt(a + [c] + b) == MatchAt(a)
  {
    var s := a + [c] + b;
    assert s[|a|] == c;
    forall j ensures MatchesUpTo(s, j) <==> MatchesUpTo(a, j) {
      if MatchesUpTo(s, j) || MatchesUpTo(a, j) {
        assert forall i :: 0 <= i <= j && i < |a| ==> s[i] == a[i];
      }
    }
    match MatchAt(a)
    case Some(k) =>
      assert MatchAt(s).Some?;
    case None =>
  }

  /**
   * No removed span crosses a line boundary: cleaning text around a line
   * terminator cleans the two sides separately and keeps the terminator.
   */
  lemma {:induction false} StripSplitsAtLineTerminator(a: string, c: char, b: string)
    requires IsLineTerminator(c)
    ensures StripParenthesized(a + [c] + b) == StripParenthesized(a) + [c] + StripParenthesized(b)
    decreases |a|
  {
    var s := a + [c] + b;
    if a == [] {
      assert s == [c] + b;
      assert MatchAt(s).None?;
      assert s[1..] == b;
    } else {
      MatchStopsAtLineTerminator(a, c, b);
      match MatchAt(a)
      case Some(j) =>
        assert s[j + 1..] == a[j + 1..] + [c] + b;
        StripSplitsAtLineTerminator(a[j + 1..], c, b);
      case None =>
        assert s[1..] == a[1..] + [c] + b;
        StripSplitsAtLineTerminator(a[1..], c, b);
    }
  }

  /** The line terminators of a text, in order. */
  function LineTerminators(s: string): (r: string)
    ensures forall i :: 0 <= i < |r| ==> IsLineTerminator(r[i])
    decreases |s|
  {
    if s == [] then []
    else (if IsLineTerminator(s[0]) then [s[0]] else []) + LineTerminators(s[1..])
  }

  /** A match contains no line terminator, so dropping it keeps them all. */
  lemma {:induction false} DroppedSpanHasNoLineTerminator(s: string, k: nat)
    requires k <= |s|
    requires forall i :: 0 <= i < k ==> !IsLineTerminator(s[i])
    ensures LineTerminators(s) == LineTerminators(s[k..])
    decreases k
  {
    if k > 0 {
      assert s[1..][k - 1..] == s[k..];
      DroppedSpanHasNoLineTerminator(s[1..], k - 1);
    }
  }

  /** Cleaning removes no line terminator and keeps them in order. */
  lemma {:induction false} StripKeepsLineTerminators(s: string)
    ensures LineTerminators(StripParenthesized(s)) == LineTerminators(s)
    decreases |s|
  {
    if s != [] {
      match MatchAt(s)
      case Some(j) =>
        StripKeepsLineTerminators(s[j + 1..]);
        DroppedSpanHasNoLineTerminator(s, j + 1);
      case None =>
        StripKeepsLineTerminators(s[1..]);
        var r := StripParenthesized(s);
        assert r[0] == s[0] && r[1..] == StripParenthesized(s[1..]);
    }
  }

  /** Greedy matching: the text between two parenthesised parts goes with them. */
  lemma GreedyAcrossTwoGroups()
    ensures StripParenthesized("a(b)c(d)e") == "ae"
  {
    var s := "a(b)c(d)e";
    assert MatchAt(s).None?;
    var t := s[1..];
    assert t == "(b)c(d)e";
    assert MatchesUpTo(t, 6);
    assert MatchAt(t) == Some(6);
    assert t[7..] == "e";
    assert MatchAt("e").None?;
    assert StripParenthesized("e") == "e";
  }

  /** `.+` needs at least one character, so empty parentheses stay. */
  lemma EmptyParenthesesKept()
    ensures StripParenthesized("()") == "()"
  {
    var s := "()";
    assert !MatchesUpTo(s, 1);
    assert MatchAt(s).None?;
    assert s[1..] == ")";
    assert MatchAt(")").None?;
    assert StripParenthesized(")") == ")";
  }

  // ---------------------------------------------------------------------------
  // The conversation

  datatype Role = User | System | Assistant

  datatype Message = Message(role: Role, content: string)

  /**
   * The guard of the `messages` effect: it asks the assistant unless the
   * conversation is empty or its last message is the assistant's.
   */
  predicate ShouldQueryAssistant(messages: seq<Message>)
  {
    |messages| > 0 && messages[|messages| - 1].role != Assistant
  }

  /** `onRecordingFinished` once the transcript arrives: the cleaned text joins the conversation as the user's. */
  function RecordTranscript(messages: seq<Message>, transcript: string): (r: seq<Message>)
    ensures |r| == |messages| + 1 && r[..|messages|] == messages
    ensures r[|messages|].role == User
    ensures IsSubsequence(r[|messages|].content, transcript)
    ensures NoMatch(r[|messages|].content)
  {
    StripIsSubsequence(transcript);
    StripLeavesNoMatch(transcript);
    messages + [Message(User, StripParenthesized(transcript))]
  }

  /**
   * A recorded transcript always makes the effect ask the assistant, even one
   * that cleaning empties.
   */
  lemma TranscriptTriggersQuery(messages: seq<Message>, transcript: string)
    ensures ShouldQueryAssistant(RecordTranscript(messages, transcript))
  {
  }

  /**
   * Once the assistant's reply is appended the effect stops: asking and
   * replying alternate instead of looping.
   */
  lemma ReplyEndsExchange(messages: seq<Message>, reply: string)
    ensures !ShouldQueryAssistant(messages + [Message(Assistant, reply)])
  {
  }

  // ---------------------------------------------------------------------------
  // The file dialogs

  /** What `open()` resolves to: `null` on cancel, one path, or a list of them. */
  datatype Selection = Cancelled | Single(path: string) | Multiple(paths: seq<string>)

  /**
   * The path `handleSelectFile` and `handleSelectTTSDirectory` load: none for a
   * cancelled dialog, an empty string (falsy) or an empty list; otherwise the
   * string itself or the first element of the list.
   */
  function PickPath(selection: Selection): (r: Option<string>)
    ensures r.None? <==> selection == Cancelled || selection == Single("") || selection == Multiple([])
    ensures r.Some? && selection.Single? ==> r.value == selection.path
    ensures r.Some? && selection.Multiple? ==> r.value == selection.paths[0]
  {
    match selection
    case Cancelled => None
    case Single(p) => if p == "" then None else Some(p)
    case Multiple(ps) => if |ps| == 0 then None else Some(ps[0])
  }
}

/** Taking the comments out of a JSON-like text. */
module StripComments {

  datatype Mode = Code | String | Line | Block(pending: bool)

  // ---------------------------------------------------------------- what the scan produces

  /** How many backslashes end the text before a position, counting no further than two. */
  function Slashes(s: string, i: nat): nat
    requires i <= |s|
  {
    if i == 0 || s[i - 1] != '\\' then 0 else if i == 1 || s[i - 2] != '\\' then 1 else 2
  }

  function After(c: char, b: nat): nat {
    if c != '\\' then 0 else if b == 0 then 1 else 2
  }

  /** A quote that exactly one backslash precedes neither opens nor closes a string. */
  predicate Quote(s: string, b: nat) {
    s != "" && s[0] == '"' && b != 1
  }

  predicate Starts(s: string, c: char, d: char) {
    |s| >= 2 && s[0] == c && s[1] == d
  }

  /** A comment begins with the text. */
  predicate CommentAt(s: string, inString: bool) {
    !inString && (Starts(s, '/', '/') || Starts(s, '/', '*'))
  }

  /** What the characters in front of the text give: perhaps a space, and some of them; how many they
      are, and how the rest is read. */
  datatype Bite = Bite(space: bool, copy: nat, n: nat, mode: Mode, b: nat)

  /** The character at the front and the one after it, which is zero at the end of the text. */
  function Look(c: char, d: char, mode: Mode, b: nat): (x: Bite)
    ensures 1 <= x.n <= 2 && x.copy <= x.n && (x.n == 2 ==> d != '\0')
  {
    match mode
    case Code =>
      if c == '"' && b != 1 then Bite(false, 1, 1, String, After(c, b))
      else if c == '/' && d == '/' then Bite(false, 0, 2, Line, 0)
      else if c == '/' && d == '*' then Bite(false, 0, 2, Block(true), 0)
      else Bite(false, 1, 1, Code, After(c, b))
    case String => Bite(false, 1, 1, if c == '"' && b != 1 then Code else String, After(c, b))
    case Line =>
      if c == '\r' && d == '\n' then Bite(true, 2, 2, Code, 0)
      else if c == '\n' then Bite(true, 1, 1, Code, 0)
      else Bite(false, 0, 1, Line, 0)
    case Block(pending) =>
      if c == '*' && d == '/' then Bite(true, 0, 2, Code, 0)
      else if c == '\r' && d == '\n' then Bite(pending, 2, 2, Block(false), 0)
      else if c == '\n' then Bite(pending, 1, 1, Block(false), 0)
      else Bite(false, 0, 1, Block(true), 0)
  }

  function Second(s: string): (d: char)
    ensures |s| < 2 ==> d == '\0'
  {
    if |s| < 2 then '\0' else s[1]
  }

  function Next(s: string, mode: Mode, b: nat): (x: Bite)
    requires s != ""
    ensures 0 < x.n <= |s| && x.copy <= x.n
  {
    Look(s[0], Second(s), mode, b)
  }

  function Out(s: string, x: Bite): string
    requires x.copy <= |s|
  {
    if x.space then " " + s[..x.copy] else s[..x.copy]
  }

  /** How long the line end is that the text begins with, zero if there is none. */
  function LineEnd(s: string): (n: nat)
    ensures n <= |s|
  {
    if Starts(s, '\r', '\n') then 2 else if s != "" && s[0] == '\n' then 1 else 0
  }

  /** What is left of the text s, read in the given mode behind b backslashes. */
  function Strip(s: string, mode: Mode, b: nat): string
    decreases |s|
  {
    if s == "" then ""
    else
      var x := Next(s, mode, b);
      Out(s, x) + Strip(s[x.n..], x.mode, x.b)
  }

  lemma StripOnce(s: string, mode: Mode, b: nat)
    requires s != ""
    ensures var x := Next(s, mode, b); Strip(s, mode, b) == Out(s, x) + Strip(s[x.n..], x.mode, x.b)
  {
  }

  /** A character that gives nothing. */
  lemma StripOver(s: string, mode: Mode, b: nat)
    requires s != "" && Out(s, Next(s, mode, b)) == ""
    ensures var x := Next(s, mode, b); Strip(s, mode, b) == Strip(s[x.n..], x.mode, x.b)
  {
    StripOnce(s, mode, b);
  }

  // ---------------------------------------------------------------- the scan

  datatype InsideComment = None | SingleLine | MultiLine

  function ModeOf(inside: InsideComment, insideString: bool, pending: bool): Mode {
    match inside
    case None => if insideString then String else Code
    case SingleLine => Line
    case MultiLine => Block(pending)
  }

  /** Where the scan is: the chunk that has been read begins at `offset` and ends before `ch`. */
  datatype Scan = Scan(offset: nat, ch: nat, inside: InsideComment, insideString: bool)

  function ReadAs(at: Scan): Mode {
    ModeOf(at.inside, at.insideString, at.ch > at.offset)
  }

  /** The text that has been read but neither copied nor replaced yet. */
  function Waiting(content: string, at: Scan): string
    requires at.offset <= at.ch <= |content|
  {
    if at.inside.None? then content[at.offset..at.ch] else ""
  }

  /** The backslashes before the position, which only matter outside of comments. */
  function Backslashes(content: string, at: Scan): nat
    requires at.ch <= |content|
  {
    if at.inside.None? then Slashes(content, at.ch) else 0
  }

  ghost function Biting(content: string, at: Scan): Bite
    requires at.offset <= at.ch < |content|
  {
    Next(content[at.ch..], ReadAs(at), Backslashes(content, at))
  }

  /** feedContent */
  method FeedContent(content: string, result: string, offset: nat, ch: nat) returns (more: string, offset': nat)
    requires offset <= ch <= |content|
    ensures more == result + content[offset..ch] && offset' == ch
  {
    more, offset' := result, offset;
    if ch > offset {
      more := more + content[offset..ch];
      offset' := ch;
    }
  }

  /** feedComment */
  method FeedComment(content: string, result: string, offset: nat, ch: nat) returns (more: string, offset': nat)
    requires offset <= ch <= |content|
    ensures more == (if ch > offset then result + " " else result) && offset' == ch
  {
    more, offset' := result, offset;
    if ch > offset {
      more := more + " ";
      offset' := ch;
    }
  }

  /** What one turn of the loop does to the scan: it bites once, feeds the result, and keeps the
      rest waiting. */
  ghost predicate Bitten(content: string, fed: string, at: Scan, to: Scan) {
    && at.offset <= at.ch < |content| && to.offset <= to.ch <= |content|
    && (to.insideString ==> to.inside.None?) && (to.inside.SingleLine? ==> to.offset < to.ch)
    && (fed == "" && to.inside.None? ==> at.inside.None? && to.offset == at.offset)
    && var x := Biting(content, at);
       && to.ch == at.ch + x.n && ReadAs(to) == x.mode && Backslashes(content, to) == x.b
       && fed + Waiting(content, to) == Waiting(content, at) + Out(content[at.ch..], x)
  }

  /** A turn of the loop outside of comments. */
  method TurnOutside(content: string, result: string, offset: nat, ch: nat, insideString: bool)
    returns (result': string, offset': nat, ch': nat, inside': InsideComment, insideString': bool, ghost fed: string)
    requires offset <= ch < |content|
    ensures Bitten(content, fed, Scan(offset, ch, None, insideString), Scan(offset', ch', inside', insideString'))
    ensures result' == result + fed
  {
    result', offset', ch', inside', insideString', fed := result, offset, ch, None, insideString, "";
    assert content[offset..ch + 1] == content[offset..ch] + content[ch..][..1];
    var currentChar := content[ch];
    var nextChar := if ch + 1 == |content| then '\0' else content[ch + 1];
    if currentChar == '"' {
      var escaped := ch > 0 && content[ch - 1] == '\\' && !(ch > 1 && content[ch - 2] == '\\');
      if !escaped {
        insideString' := !insideString;
      }
    }
    if insideString' {
      ch' := ch + 1;
      return;
    }
    if currentChar == '/' && nextChar == '/' {
      result', offset' := FeedContent(content, result', offset', ch);
      fed := content[offset..ch];
      inside' := SingleLine;
      ch' := ch + 2;
    } else if currentChar == '/' && nextChar == '*' {
      result', offset' := FeedContent(content, result', offset', ch);
      fed := content[offset..ch];
      ch' := ch + 2;
      inside' := MultiLine;
    } else {
      ch' := ch + 1;
    }
  }

  /** A turn of the loop within a comment that ends with its line. */
  method TurnInLine(content: string, result: string, offset: nat, ch: nat)
    returns (result': string, offset': nat, ch': nat, inside': InsideComment, ghost fed: string)
    requires offset < ch < |content|
    ensures Bitten(content, fed, Scan(offset, ch, SingleLine, false), Scan(offset', ch', inside', false))
    ensures result' == result + fed
  {
    result', offset', ch', inside', fed := result, offset, ch, SingleLine, "";
    var currentChar := content[ch];
    var nextChar := if ch + 1 == |content| then '\0' else content[ch + 1];
    if currentChar == '\r' && nextChar == '\n' {
      result', offset' := FeedComment(content, result', offset', ch);
      fed := " ";
      ch' := ch + 2;
      inside' := None;
    } else if currentChar == '\n' {
      result', offset' := FeedComment(content, result', offset', ch);
      fed := " ";
      ch' := ch + 1;
      inside' := None;
    } else {
      ch' := ch + 1;
    }
  }

  /** A line end within a comment: what waits before it becomes a space, and it is copied. */
  method FeedLineEnd(content: string, result: string, offset: nat, ch: nat, n: nat)
    returns (more: string, offset': nat, ghost fed: string)
    requires offset <= ch && ch + n <= |content|
    ensures fed == (if ch > offset then " " else "") + content[ch..][..n]
    ensures more == result + fed && offset' == ch + n
  {
    more, offset' := FeedComment(content, result, offset, ch);
    more, offset' := FeedContent(content, more, offset', ch + n);
    fed := (if ch > offset then " " else "") + content[ch..][..n];
    assert content[ch..ch + n] == content[ch..][..n];
  }

  /** A turn of the loop within a comment that ends with an asterisk and a slash. */
  method TurnInBlock(content: string, result: string, offset: nat, ch: nat)
    returns (result': string, offset': nat, ch': nat, inside': InsideComment, ghost fed: string)
    requires offset <= ch < |content|
    ensures Bitten(content, fed, Scan(offset, ch, MultiLine, false), Scan(offset', ch', inside', false))
    ensures result' == result + fed
  {
    result', offset', ch', inside', fed := result, offset, ch, MultiLine, "";
    var currentChar := content[ch];
    var nextChar := if ch + 1 == |content| then '\0' else content[ch + 1];
    if currentChar == '*' && nextChar == '/' {
      ch' := ch + 2;
      result', offset' := FeedComment(content, result', offset', ch');
      fed := " ";
      inside' := None;
    } else if currentChar == '\r' && nextChar == '\n' {
      result', offset', fed := FeedLineEnd(content, result', offset', ch, 2);
      ch' := ch + 2;
    } else if currentChar == '\n' {
      result', offset', fed := FeedLineEnd(content, result', offset', ch, 1);
      ch' := ch + 1;
    } else {
      ch' := ch + 1;
    }
  }

  lemma Reassociate(r: string, fed: string, w': string, w: string, out: string, rest: string, whole: string)
    requires fed + w' == w + out && whole == out + rest
    ensures r + fed + w' + rest == r + w + whole
  {
    assert r + fed + w' == r + (fed + w');
    assert r + w + out == r + (w + out);
    assert r + w + (out + rest) == r + w + out + rest;
  }

  /** The text that the scan has ready and the text that it still has to read. */
  ghost function Scanned(content: string, result: string, at: Scan): string
    requires at.offset <= at.ch <= |content|
  {
    result + Waiting(content, at) + StillToRead(content, at)
  }

  ghost function StillToRead(content: string, at: Scan): string
    requires at.offset <= at.ch <= |content|
  {
    Strip(content[at.ch..], ReadAs(at), Backslashes(content, at))
  }

  lemma Later(s: string, i: nat, n: nat)
    requires i + n <= |s|
    ensures s[i..][n..] == s[i + n..]
  {
  }

  lemma BittenScans(content: string, result: string, fed: string, at: Scan, to: Scan)
    requires Bitten(content, fed, at, to)
    ensures Scanned(content, result + fed, to) == Scanned(content, result, at)
  {
    RestBites(content, fed, at, to);
    var out := Out(content[at.ch..], Biting(content, at));
    Reassociate(result, fed, Waiting(content, to), Waiting(content, at), out,
                StillToRead(content, to), StillToRead(content, at));
  }

  lemma RestBites(content: string, fed: string, at: Scan, to: Scan)
    requires Bitten(content, fed, at, to)
    ensures StillToRead(content, at) == Out(content[at.ch..], Biting(content, at)) + StillToRead(content, to)
  {
    StripFrom(content, at.ch, ReadAs(at), Backslashes(content, at), to.ch, ReadAs(to), Backslashes(content, to));
  }

  lemma StripFrom(s: string, i: nat, mode: Mode, b: nat, k: nat, mode': Mode, b': nat)
    requires i < |s|
    requires var x := Next(s[i..], mode, b); k == i + x.n && mode' == x.mode && b' == x.b
    ensures Strip(s[i..], mode, b) == Out(s[i..], Next(s[i..], mode, b)) + Strip(s[k..], mode', b')
  {
    Later(s, i, k - i);
    StripOnce(s[i..], mode, b);
  }

  method StripAll(content: string) returns (result: string)
    ensures result == Strip(content, Code, 0)
  {
    var inside, insideString := None, false;
    result := "";
    var offset: nat, ch: nat := 0, 0;
    Whole(content);
    while ch != |content|
      invariant offset <= ch <= |content|
      invariant (insideString ==> inside.None?) && (inside.SingleLine? ==> offset < ch)
      invariant result == "" && inside.None? ==> offset == 0
      invariant Scanned(content, result, Scan(offset, ch, inside, insideString)) == Strip(content, Code, 0)
      decreases |content| - ch
    {
      ghost var fed;
      ghost var was, at := result, Scan(offset, ch, inside, insideString);
      match inside {
        case None =>
          result, offset, ch, inside, insideString, fed := TurnOutside(content, result, offset, ch, insideString);
        case SingleLine => result, offset, ch, inside, fed := TurnInLine(content, result, offset, ch);
        case MultiLine => result, offset, ch, inside, fed := TurnInBlock(content, result, offset, ch);
      }
      BittenScans(content, was, fed, at, Scan(offset, ch, inside, insideString));
    }
    ScannedAtEnd(content, result, Scan(offset, ch, inside, insideString));
    if inside.None? && |content| > offset {
      if result == "" {
        return content;
      } else {
        result := result + content[offset..];
      }
    }
  }

  lemma ScannedAtEnd(content: string, result: string, at: Scan)
    requires at.offset <= at.ch == |content|
    ensures Scanned(content, result, at) == if at.inside.None? then result + content[at.offset..] else result
    ensures result == "" && at.offset == 0 && at.inside.None? ==> Scanned(content, result, at) == content
  {
    assert content[|content|..] == "";
    var waiting := Waiting(content, at);
    assert result + waiting + "" == result + waiting;
  }

  // ---------------------------------------------------------------- the text keeps its lines

  datatype NewLine = CRLF | LF

  function NewLines(s: string): seq<NewLine> {
    if s == "" then []
    else if Starts(s, '\r', '\n') then [CRLF] + NewLines(s[2..])
    else if s[0] == '\n' then [LF] + NewLines(s[1..])
    else NewLines(s[1..])
  }

  /** Outside of comments the text begins with the same character, if that is not the start of a
      comment, which leaves a space or nothing. */
  lemma FirstKept(s: string, mode: Mode, b: nat)
    requires s != "" && (mode.Code? || mode.String?)
    ensures var r := Strip(s, mode, b);
            if r == "" then s[0] == '/'
            else r[0] == s[0] || (r[0] == ' ' && s[0] == '/' && Starts(s, '/', s[1]) && (s[1] == '/' || s[1] == '*'))
  {
    StripOnce(s, mode, b);
    if mode.Code? && CommentAt(s, false) {
      CommentBegins(s[2..], if s[1] == '/' then Line else Block(true));
    }
  }

  lemma {:induction false} CommentBegins(s: string, mode: Mode)
    requires mode == Line || mode == Block(true)
    ensures Strip(s, mode, 0) != "" ==> Strip(s, mode, 0)[0] == ' '
  {
    if s != "" {
      StripOnce(s, mode, 0);
      var x := Next(s, mode, 0);
      if !x.space { CommentBegins(s[x.n..], x.mode); }
    }
  }

  /** Every line end of the text is kept, whether it is in a comment or not. */
  lemma {:induction false} NewLinesKept(s: string, mode: Mode, b: nat)
    ensures NewLines(Strip(s, mode, b)) == NewLines(s)
    decreases |s|
  {
    if s != "" {
      match mode {
        case Code =>
          if CommentAt(s, false) {
            StripOver(s, mode, b);
            NewLinesKept(s[2..], if s[1] == '/' then Line else Block(true), 0);
          } else {
            CopiedKeeps(s, mode, b);
          }
        case String => CopiedKeeps(s, mode, b);
        case Line => CommentKeeps(s, mode);
        case Block(_) => CommentKeeps(s, mode);
      }
    }
  }

  /** A character that is copied. */
  lemma CopiedFirst(s: string, mode: Mode, b: nat)
    requires s != "" && (mode.Code? || mode.String?) && (mode.Code? ==> !CommentAt(s, false))
    ensures var mode' := if !Quote(s, b) then mode else if mode.Code? then String else Code;
            var r := Strip(s, mode, b);
            r != "" && r[0] == s[0] && r[1..] == Strip(s[1..], mode', After(s[0], b))
  {
    StripOnce(s, mode, b);
    assert s[..1] == [s[0]];
  }

  lemma {:induction false} CopiedKeeps(s: string, mode: Mode, b: nat)
    requires s != "" && (mode.Code? || mode.String?)
    requires mode.Code? ==> !CommentAt(s, false)
    ensures NewLines(Strip(s, mode, b)) == NewLines(s)
    decreases |s|, 0
  {
    var r := Strip(s, mode, b);
    var mode' := if !Quote(s, b) then mode else if mode.Code? then String else Code;
    CopiedFirst(s, mode, b);
    NewLinesKept(s[1..], mode', After(s[0], b));
    if |s| > 1 { FirstKept(s[1..], mode', After(s[0], b)); }
    if Starts(s, '\r', '\n') {
      CopiedFirst(s[1..], mode, 0);
      assert r[1..][1..] == r[2..] && s[1..][1..] == s[2..];
      NewLinesKept(s[2..], mode, 0);
    }
  }

  lemma {:induction false} CommentKeeps(s: string, mode: Mode)
    requires s != "" && (mode.Line? || mode.Block?)
    ensures NewLines(Strip(s, mode, 0)) == NewLines(s)
    decreases |s|, 0
  {
    var x := Next(s, mode, 0);
    var tail := Strip(s[x.n..], x.mode, 0);
    NewLinesKept(s[x.n..], x.mode, 0);
    StripOnce(s, mode, 0);
    if x.copy > 0 {
      LineKept(s, x, tail);
    } else {
      NothingKept(s, x, tail);
    }
  }

  lemma LineKept(s: string, x: Bite, tail: string)
    requires 0 < x.copy == x.n == LineEnd(s) && NewLines(tail) == NewLines(s[x.n..])
    ensures NewLines(Out(s, x) + tail) == NewLines(s)
  {
    var line := s[..x.n];
    LineCounts(line, tail);
    LineCounts(line, s[x.n..]);
    TwoParts(s, x.n);
    SpaceKeeps(line + tail);
    Glue(" ", line, tail);
  }

  lemma NothingKept(s: string, x: Bite, tail: string)
    requires x.copy == 0 && x.n <= |s| && NewLines(s) == NewLines(s[x.n..]) == NewLines(tail)
    ensures NewLines(Out(s, x) + tail) == NewLines(s)
  {
    SpaceKeeps(tail);
    assert s[..0] == "" && "" + tail == tail;
  }

  lemma SpaceKeeps(tail: string)
    ensures NewLines(" " + tail) == NewLines(tail)
  {
    assert (" " + tail)[1..] == tail;
  }

  lemma LineCounts(line: string, tail: string)
    requires line == "\n" || line == "\r\n"
    ensures NewLines(line + tail) == [if line == "\n" then LF else CRLF] + NewLines(tail)
  {
    assert (line + tail)[|line|..] == tail;
  }

  lemma Glue(a: string, b: string, c: string)
    ensures a + b + c == a + (b + c)
  {
  }

  // ---------------------------------------------------------------- the text never grows

  /** A comment that has been opened can give back one character more than is left of it. */
  lemma {:induction false} NeverGrows(s: string, mode: Mode, b: nat)
    ensures |Strip(s, mode, b)| <= |s| + if mode == Line || mode == Block(true) then 1 else 0
    decreases |s|
  {
    if s != "" {
      var x := Next(s, mode, b);
      StripOnce(s, mode, b);
      NeverGrows(s[x.n..], x.mode, x.b);
    }
  }

  // ---------------------------------------------------------------- no comment is left

  /** Reading what is left once more changes nothing. */
  lemma {:induction false} Again(s: string, mode: Mode, b: nat, b': nat)
    requires b == b' || mode.Line? || mode.Block?
    ensures var r := Strip(s, mode, b);
            Strip(r, if mode.String? then String else Code, b') == r
    decreases |s|
  {
    if s != "" {
      match mode {
        case Code =>
          if CommentAt(s, false) {
            StripOver(s, mode, b);
            Again(s[2..], if s[1] == '/' then Line else Block(true), 0, b');
          } else {
            CopiedAgain(s, mode, b);
          }
        case String => CopiedAgain(s, mode, b);
        case Line => CommentAgain(s, mode, b');
        case Block(_) => CommentAgain(s, mode, b');
      }
    }
  }

  lemma {:induction false} CommentAgain(s: string, mode: Mode, b: nat)
    requires s != "" && (mode.Line? || mode.Block?)
    ensures Strip(Strip(s, mode, 0), Code, b) == Strip(s, mode, 0)
    decreases |s|, 0
  {
    hide Strip;
    var x := Next(s, mode, 0);
    var out := Out(s, x);
    CommentGivesPlain(s, mode);
    var b' := if out == "" then b else 0;
    Again(s[x.n..], x.mode, 0, b');
    BiteAgain(s, mode, x, Strip(s[x.n..], x.mode, 0), b, b');
  }

  lemma BiteAgain(s: string, mode: Mode, x: Bite, tail: string, b: nat, b': nat)
    requires s != "" && x == Next(s, mode, 0) && tail == Strip(s[x.n..], x.mode, x.b)
    requires Plain(Out(s, x)) && b' == (if Out(s, x) == "" then b else 0) && Strip(tail, Code, b') == tail
    ensures Strip(Strip(s, mode, 0), Code, b) == Strip(s, mode, 0)
  {
    hide *;
    StripOnce(s, mode, 0);
    PlainAgain(Strip(s, mode, 0), Out(s, x), tail, b, b');
  }

  lemma PlainAgain(r: string, out: string, tail: string, b: nat, b': nat)
    requires r == out + tail && Plain(out) && b' == (if out == "" then b else 0) && Strip(tail, Code, b') == tail
    ensures Strip(r, Code, b) == r
  {
    if out == "" {
      assert r == tail;
    } else {
      PlainPasses(out, tail, b);
    }
  }

  predicate Plain(text: string) {
    forall i :: 0 <= i < |text| ==> text[i] == ' ' || text[i] == '\r' || text[i] == '\n'
  }

  lemma CommentGivesPlain(s: string, mode: Mode)
    requires s != "" && (mode.Line? || mode.Block?)
    ensures Plain(Out(s, Next(s, mode, 0))) && !Next(s, mode, 0).mode.String?
  {
  }

  /** Spaces and line ends stay, and what follows them is read as if it were at the beginning. */
  lemma {:induction false} PlainPasses(text: string, tail: string, b: nat)
    requires Plain(text) && (text == "" ==> b == 0)
    ensures Strip(text + tail, Code, b) == text + Strip(tail, Code, 0)
  {
    if text == "" {
      assert text + tail == tail;
      assert text + Strip(tail, Code, 0) == Strip(tail, Code, 0);
    } else {
      PlainPasses(text[1..], tail, 0);
      HeadAndTail(text, tail);
      HeadAndTail(text, Strip(tail, Code, 0));
      FirstPasses(text + tail, b);
    }
  }

  lemma FirstPasses(s: string, b: nat)
    requires s != "" && Plain(s[..1])
    ensures Strip(s, Code, b) == s[..1] + Strip(s[1..], Code, 0)
  {
    assert s[0] == s[..1][0];
    StripOnce(s, Code, b);
  }

  lemma HeadAndTail(s: string, t: string)
    requires s != ""
    ensures (s + t)[1..] == s[1..] + t && (s + t)[..1] == s[..1] && s + t == s[..1] + (s[1..] + t)
  {
  }

  lemma {:induction false} CopiedAgain(s: string, mode: Mode, b: nat)
    requires s != "" && (mode.Code? || mode.String?)
    requires mode.Code? ==> !CommentAt(s, false)
    ensures Strip(Strip(s, mode, b), mode, b) == Strip(s, mode, b)
    decreases |s|, 0
  {
    var r := Strip(s, mode, b);
    var mode' := if !Quote(s, b) then mode else if mode.Code? then String else Code;
    CopiedFirst(s, mode, b);
    Again(s[1..], mode', After(s[0], b), After(s[0], b));
    if |s| > 1 { FirstKept(s[1..], mode', After(s[0], b)); }
    assert Quote(r, b) == Quote(s, b) && !(mode.Code? && CommentAt(r, false));
    CopiedFirst(r, mode, b);
    HeadsAndTails(Strip(r, mode, b), r);
  }

  lemma HeadsAndTails(s: string, t: string)
    requires s != "" && t != "" && s[0] == t[0] && s[1..] == t[1..]
    ensures s == t
  {
    assert s == [s[0]] + s[1..] && t == [t[0]] + t[1..];
  }

  lemma Idempotent(s: string)
    ensures Strip(Strip(s, Code, 0), Code, 0) == Strip(s, Code, 0)
  {
    Again(s, Code, 0, 0);
  }

  /** How many quotes before the position open or close a string, in a text without comments. */
  function Quotes(s: string, i: nat): nat
    requires i <= |s|
  {
    if i == 0 then 0
    else Quotes(s, i - 1) + if s[i - 1] == '"' && Slashes(s, i - 1) != 1 then 1 else 0
  }

  predicate Opens(s: string, i: nat)
    requires i <= |s|
  {
    Starts(s[i..], '/', '/') || Starts(s[i..], '/', '*')
  }

  /** Two slashes, or a slash and an asterisk, are only found within strings. */
  predicate CommentFree(s: string) {
    forall i: nat :: i < |s| ==> Allowed(s, i)
  }

  predicate FreeFrom(s: string, i: nat)
    requires i <= |s|
    decreases |s| - i
  {
    i == |s| || (Allowed(s, i) && FreeFrom(s, i + 1))
  }

  /** Where a comment opens, or would open if it were not in a string. */
  predicate Allowed(s: string, i: nat)
    requires i <= |s|
  {
    Opens(s, i) ==> Quotes(s, i) % 2 == 1
  }

  lemma {:induction false} FreeIsAll(s: string, i: nat)
    requires i <= |s|
    ensures FreeFrom(s, i) == forall j: nat :: i <= j < |s| ==> Allowed(s, j)
    decreases |s| - i
  {
    if i < |s| { FreeIsAll(s, i + 1); }
  }

  lemma CountsStep(s: string, i: nat)
    requires i < |s|
    ensures Quotes(s, i + 1) == Quotes(s, i) + if Quote(s[i..], Slashes(s, i)) then 1 else 0
    ensures Slashes(s, i + 1) == After(s[i], Slashes(s, i))
  {
  }

  /** A comment that opens here makes the text shorter. */
  lemma OpeningShortens(s: string, b: nat)
    requires Starts(s, '/', '/') || Starts(s, '/', '*')
    ensures |Strip(s, Code, b)| < |s|
  {
    StripOver(s, Code, b);
    NeverGrows(s[2..], Line, 0);
    NeverGrows(s[2..], Block(true), 0);
  }

  function ModeAt(s: string, i: nat): Mode
    requires i <= |s|
  {
    if Quotes(s, i) % 2 == 1 then String else Code
  }

  lemma {:induction false} FreeStays(s: string, i: nat)
    requires i <= |s| && FreeFrom(s, i)
    ensures Strip(s[i..], ModeAt(s, i), Slashes(s, i)) == s[i..]
    decreases |s| - i
  {
    if i < |s| {
      FreeStays(s, i + 1);
      AllowedCopies(s, i);
      FrontAndRest(s, i);
    }
  }

  lemma AllowedCopies(s: string, i: nat)
    requires i < |s| && Allowed(s, i)
    ensures Strip(s[i..], ModeAt(s, i), Slashes(s, i))
            == [s[i]] + Strip(s[i + 1..], ModeAt(s, i + 1), Slashes(s, i + 1))
  {
    CountsStep(s, i);
    StripFrom(s, i, ModeAt(s, i), Slashes(s, i), i + 1, ModeAt(s, i + 1), Slashes(s, i + 1));
    assert s[i..][..1] == [s[i]];
  }

  lemma FrontAndRest(s: string, i: nat)
    requires i < |s|
    ensures [s[i]] + s[i + 1..] == s[i..]
  {
  }

  /** If a comment opens anywhere the text gets shorter. */
  lemma {:induction false} OpenedShortens(s: string, i: nat)
    requires i <= |s| && !FreeFrom(s, i)
    ensures |Strip(s[i..], ModeAt(s, i), Slashes(s, i))| < |s| - i
    decreases |s| - i
  {
    hide Strip;
    if i < |s| {
      if Allowed(s, i) {
        OpenedShortens(s, i + 1);
        LaterShortens(s, i);
      } else {
        OpeningShortens(s[i..], Slashes(s, i));
      }
    }
  }

  lemma LaterShortens(s: string, i: nat)
    requires i < |s| && Allowed(s, i)
    requires |Strip(s[i + 1..], ModeAt(s, i + 1), Slashes(s, i + 1))| < |s| - (i + 1)
    ensures |Strip(s[i..], ModeAt(s, i), Slashes(s, i))| < |s| - i
  {
    hide Strip;
    AllowedCopies(s, i);
  }

  /** A text is returned as it is exactly when no comment opens in it. */
  lemma UnchangedExactlyWhen(s: string)
    ensures Strip(s, Code, 0) == s <==> CommentFree(s)
  {
    Whole(s);
    FreeIsAll(s, 0);
    if CommentFree(s) {
      FreeStays(s, 0);
    } else {
      OpenedShortens(s, 0);
    }
  }

  lemma Whole(s: string)
    ensures s[0..] == s
  {
  }

  // ---------------------------------------------------------------- the text around comments

  /** One character outside of comments, or one comment; the end of its line does not belong to a
      comment that begins with two slashes. */
  datatype Piece = Text(c: char) | Comment(text: string, closed: bool)

  /** How many characters are read at once within a comment. */
  function Bit(s: string): (k: nat)
    requires s != ""
    ensures 0 < k <= |s|
  {
    if LineEnd(s) > 0 then LineEnd(s) else 1
  }

  predicate EndsHere(s: string, mode: Mode) {
    if mode.Line? then LineEnd(s) > 0 else Starts(s, '*', '/')
  }

  /** How much of the text belongs to the comment in which it begins. */
  function CommentLength(s: string, mode: Mode): (n: nat)
    ensures n <= |s|
  {
    if s == "" then 0
    else if EndsHere(s, mode) then (if mode.Line? then 0 else 2)
    else Bit(s) + CommentLength(s[Bit(s)..], mode)
  }

  predicate Closes(s: string, mode: Mode) {
    s != "" && (EndsHere(s, mode) || Closes(s[Bit(s)..], mode))
  }

  function Characters(piece: Piece): string {
    match piece case Text(c) => [c] case Comment(text, _) => text
  }

  function FirstPiece(s: string, inString: bool): (piece: Piece)
    requires s != ""
    ensures piece.Comment? <==> CommentAt(s, inString)
    ensures 0 < |Characters(piece)| <= |s| && Characters(piece) == s[..|Characters(piece)|]
  {
    if CommentAt(s, inString) then
      var mode := if s[1] == '/' then Line else Block(true);
      Comment(s[..2 + CommentLength(s[2..], mode)], Closes(s[2..], mode))
    else Text(s[0])
  }

  /** What is left after the first piece, and how it is read. */
  function Others(s: string, inString: bool): (rest: string)
    requires s != ""
    ensures |rest| < |s|
  {
    s[|Characters(FirstPiece(s, inString))|..]
  }

  function StringAfter(s: string, inString: bool, b: nat): bool {
    if CommentAt(s, inString) then false else if Quote(s, b) then !inString else inString
  }

  function SlashesAfter(s: string, inString: bool, b: nat): nat
    requires s != ""
  {
    if CommentAt(s, inString) then 0 else After(s[0], b)
  }

  function Pieces(s: string, inString: bool, b: nat): seq<Piece>
    decreases |s|
  {
    if s == "" then []
    else
      [FirstPiece(s, inString)] + Pieces(Others(s, inString), StringAfter(s, inString, b), SlashesAfter(s, inString, b))
  }

  function Source(pieces: seq<Piece>): string {
    if pieces == [] then "" else Characters(pieces[0]) + Source(pieces[1..])
  }

  /** Each run of characters between the line ends of a comment becomes one space, except for the
      last one if the comment is not closed. */
  function Blank(text: string, pending: bool, closed: bool): string {
    if text == "" then (if pending && closed then " " else "")
    else if LineEnd(text) > 0 then
      (if pending then " " else "") + text[..LineEnd(text)] + Blank(text[LineEnd(text)..], false, closed)
    else Blank(text[1..], true, closed)
  }

  function Render(piece: Piece): string {
    match piece case Text(c) => [c] case Comment(text, closed) => Blank(text, false, closed)
  }

  function Rendered(pieces: seq<Piece>): string {
    if pieces == [] then "" else Render(pieces[0]) + Rendered(pieces[1..])
  }

  lemma {:induction false} PiecesAreTheText(s: string, inString: bool, b: nat)
    ensures Source(Pieces(s, inString, b)) == s
    decreases |s|
  {
    if s != "" {
      var rest, after, slashes := Others(s, inString), StringAfter(s, inString, b), SlashesAfter(s, inString, b);
      PiecesAreTheText(rest, after, slashes);
      SourceCons(FirstPiece(s, inString), Pieces(rest, after, slashes));
      TwoParts(s, |Characters(FirstPiece(s, inString))|);
    }
  }

  lemma SourceCons(piece: Piece, pieces: seq<Piece>)
    ensures Source([piece] + pieces) == Characters(piece) + Source(pieces)
  {
    assert ([piece] + pieces)[1..] == pieces;
  }

  lemma TwoParts(s: string, n: nat)
    requires n <= |s|
    ensures s[..n] + s[n..] == s
  {
  }

  lemma {:induction false} CommentIsBlank(s: string, mode: Mode)
    requires mode.Line? || mode.Block?
    ensures var n := CommentLength(s, mode);
            Strip(s, mode, 0) == Blank(s[..n], mode != Block(false), Closes(s, mode)) + Strip(s[n..], Code, 0)
    decreases |s|
  {
    if s != "" {
      if !EndsHere(s, mode) {
        var k := Bit(s);
        CommentIsBlank(s[k..], Next(s, mode, 0).mode);
        BlankStep(s, mode);
      } else if mode.Line? {
        LineEndIsText(s);
      } else {
        StripOnce(s, mode, 0);
        assert s[..2][1..] == "/" && "/"[1..] == "";
        assert Blank(s[..2], mode != Block(false), true) == " ";
      }
    }
  }

  /** A line end outside of comments, which a comment up to the end of the line leaves there. */
  lemma LineEndIsText(s: string)
    requires LineEnd(s) > 0
    ensures Strip(s, Line, 0) == Blank(s[..0], true, true) + Strip(s[0..], Code, 0)
  {
    var k := LineEnd(s);
    var rest := Strip(s[k..], Code, 0);
    Whole(s);
    StripOnce(s, Line, 0);
    PlainPasses(s[..k], s[k..], 0);
    TwoParts(s, k);
    Glue(" ", s[..k], rest);
  }

  lemma Slices(s: string, k: nat, n: nat)
    requires k <= n <= |s|
    ensures s[..n][k..] == s[k..][..n - k] && s[n..] == s[k..][n - k..]
  {
  }

  lemma BlankStep(s: string, mode: Mode)
    requires s != "" && (mode.Line? || mode.Block?) && !EndsHere(s, mode)
    requires var tail, mode' := s[Bit(s)..], Next(s, mode, 0).mode;
             var m := CommentLength(tail, mode');
             Strip(tail, mode', 0)
             == Blank(tail[..m], mode' != Block(false), Closes(tail, mode')) + Strip(tail[m..], Code, 0)
    ensures var n := CommentLength(s, mode);
            Strip(s, mode, 0) == Blank(s[..n], mode != Block(false), Closes(s, mode)) + Strip(s[n..], Code, 0)
  {
    hide Strip;
    var x := Next(s, mode, 0);
    var tail := s[Bit(s)..];
    var n, m := CommentLength(s, mode), CommentLength(tail, x.mode);
    BlankPart(s, mode);
    BlankJoin(s, mode, x, n, tail, m, Blank(s[..n], mode != Block(false), Closes(s, mode)),
              Blank(tail[..m], x.mode != Block(false), Closes(tail, x.mode)));
  }

  lemma BlankJoin(s: string, mode: Mode, x: Bite, n: nat, tail: string, m: nat, blank: string, blankTail: string)
    requires s != "" && x == Next(s, mode, 0) && tail == s[x.n..] && blank == Out(s, x) + blankTail
    requires n <= |s| && m <= |tail| && s[n..] == tail[m..]
    requires Strip(tail, x.mode, x.b) == blankTail + Strip(tail[m..], Code, 0)
    ensures Strip(s, mode, 0) == blank + Strip(s[n..], Code, 0)
  {
    hide *;
    StripOnce(s, mode, 0);
    Glue(Out(s, x), blankTail, Strip(tail[m..], Code, 0));
  }

  lemma BlankPart(s: string, mode: Mode)
    requires s != "" && (mode.Line? || mode.Block?) && !EndsHere(s, mode)
    ensures var tail, x := s[Bit(s)..], Next(s, mode, 0);
            var n, m := CommentLength(s, mode), CommentLength(tail, x.mode);
            && s[n..] == tail[m..]
            && Blank(s[..n], mode != Block(false), Closes(s, mode))
            == Out(s, x) + Blank(tail[..m], x.mode != Block(false), Closes(tail, x.mode))
  {
    hide Blank, CommentLength, Closes;
    var k, x := Bit(s), Next(s, mode, 0);
    var tail := s[k..];
    LengthOnce(s, mode);
    SameLength(tail, mode, x.mode);
    var n := CommentLength(s, mode);
    Slices(s, k, n);
    BlankBite(s, n, mode, Closes(s, mode));
  }

  lemma LengthOnce(s: string, mode: Mode)
    requires s != "" && !EndsHere(s, mode)
    ensures CommentLength(s, mode) == Bit(s) + CommentLength(s[Bit(s)..], mode)
    ensures Closes(s, mode) == Closes(s[Bit(s)..], mode)
  {
  }

  /** The length of a comment does not depend on whether characters of it are pending. */
  lemma {:induction false} SameLength(s: string, mode: Mode, mode': Mode)
    requires mode == mode' || (mode.Block? && mode'.Block?)
    ensures CommentLength(s, mode) == CommentLength(s, mode') && Closes(s, mode) == Closes(s, mode')
    decreases |s|
  {
    if s != "" && !EndsHere(s, mode) { SameLength(s[Bit(s)..], mode, mode'); }
  }

  lemma BlankBite(s: string, n: nat, mode: Mode, closed: bool)
    requires s != "" && (mode.Line? || mode.Block?) && !EndsHere(s, mode) && Bit(s) <= n <= |s|
    ensures Blank(s[..n], mode != Block(false), closed)
         == Out(s, Next(s, mode, 0)) + Blank(s[..n][Bit(s)..], Next(s, mode, 0).mode != Block(false), closed)
  {
    var text := s[..n];
    assert LineEnd(text) == LineEnd(s);
    assert text[..LineEnd(s)] == s[..LineEnd(s)];
  }

  lemma OpenerIsBlank(s: string, n: nat, b: nat, mode: Mode)
    requires (Starts(s, '/', '/') && mode == Line) || (Starts(s, '/', '*') && mode == Block(true))
    requires 2 <= n <= |s|
    ensures forall closed :: Blank(s[..n], false, closed) == Blank(s[2..][..n - 2], true, closed)
    ensures Strip(s, Code, b) == Strip(s[2..], mode, 0)
  {
    var text := s[..n];
    StripOver(s, Code, b);
    assert text[1..][1..] == s[2..][..n - 2];
  }

  lemma WholeCommentIsBlank(s: string, b: nat, mode: Mode)
    requires (Starts(s, '/', '/') && mode == Line) || (Starts(s, '/', '*') && mode == Block(true))
    ensures var n := 2 + CommentLength(s[2..], mode);
            Strip(s, Code, b) == Blank(s[..n], false, Closes(s[2..], mode)) + Strip(s[n..], Code, 0)
  {
    hide Strip;
    var n := 2 + CommentLength(s[2..], mode);
    Later(s, 2, n - 2);
    OpenerIsBlank(s, n, b, mode);
    CommentIsBlank(s[2..], mode);
  }

  /** What is left is the text with every character outside of comments as it was and in its place,
      and with nothing but spaces and line ends for the comments. */
  lemma {:induction false} TextIsCopied(s: string, inString: bool, b: nat)
    ensures Strip(s, ReadIn(inString), b) == Rendered(Pieces(s, inString, b))
    decreases |s|
  {
    if s != "" {
      var rest, after, slashes := Others(s, inString), StringAfter(s, inString, b), SlashesAfter(s, inString, b);
      TextIsCopied(rest, after, slashes);
      PieceIsCopied(s, inString, b);
      RenderedCons(FirstPiece(s, inString), Pieces(rest, after, slashes));
    }
  }

  function ReadIn(inString: bool): Mode {
    if inString then String else Code
  }

  lemma PieceIsCopied(s: string, inString: bool, b: nat)
    requires s != ""
    ensures Strip(s, ReadIn(inString), b)
         == Render(FirstPiece(s, inString))
            + Strip(Others(s, inString), ReadIn(StringAfter(s, inString, b)), SlashesAfter(s, inString, b))
  {
    if CommentAt(s, inString) {
      WholeCommentIsBlank(s, b, if s[1] == '/' then Line else Block(true));
    } else {
      StripOnce(s, ReadIn(inString), b);
      assert s[..1] == [s[0]];
    }
  }

  lemma RenderedCons(piece: Piece, pieces: seq<Piece>)
    ensures Rendered([piece] + pieces) == Render(piece) + Rendered(pieces)
  {
    assert ([piece] + pieces)[1..] == pieces;
  }
}

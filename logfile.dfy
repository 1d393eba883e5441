/** The CSV log file: the row format `AppendCSV` writes, `LineCount`, and
    the backward tail `TrimToLast` keeps. A file is its content, one
    character per byte; `None` stands for a file that does not exist. */
module LogFile {
  import opened Wrappers
  import opened GoStrings

  const Header: string := "timestamp,ac_connected,battery_life\n"

  /** One data line: `%s,%d,%d\n` with the AC flag written as 1 or 0. */
  function CsvRow(timestamp: string, ac: bool, pct: int): (r: string)
  {
    timestamp + "," + (if ac then "1" else "0") + "," + Itoa(pct) + "\n"
  }

  /** The file after `AppendCSV`: the header goes first only when the file
      did not exist. */
  function AppendCSV(file: Option<string>, timestamp: string, ac: bool, pct: int): (r: string)
    ensures file.None? ==> |Header| <= |r| && r[..|Header|] == Header
    ensures file.Some? ==> |file.value| <= |r| && r[..|file.value|] == file.value
    ensures HasSuffix(r, CsvRow(timestamp, ac, pct))
    ensures |r| == (if file.None? then |Header| else |file.value|) + |CsvRow(timestamp, ac, pct)|
  {
    var row := CsvRow(timestamp, ac, pct);
    var r := (if file.None? then Header else file.value) + row;
    assert r[|r| - |row|..] == row;
    r
  }

  // ---------------------------------------------------------------------
  // LineCount

  function CountNewlines(s: string): nat
  {
    if s == [] then 0 else (if s[0] == '\n' then 1 else 0) + CountNewlines(s[1..])
  }

  lemma {:induction false} CountNewlinesAppend(a: string, b: string)
    ensures CountNewlines(a + b) == CountNewlines(a) + CountNewlines(b)
  {
    if a != [] {
      assert (a + b)[0] == a[0];
      assert (a + b)[1..] == a[1..] + b;
      CountNewlinesAppend(a[1..], b);
    } else {
      assert a + b == b;
    }
  }

  lemma {:induction false} CountNewlinesNone(s: string)
    requires '\n' !in s
    ensures CountNewlines(s) == 0
  {
    if s != [] {
      assert s[0] != '\n';
      assert '\n' !in s[1..];
      CountNewlinesNone(s[1..]);
    }
  }

  /** What one `ReadString('\n')` consumes: up to and including the next
      newline. */
  lemma CountNewlinesAt(t: string, k: nat)
    requires k < |t| && t[k] == '\n' && '\n' !in t[..k]
    ensures CountNewlines(t) == 1 + CountNewlines(t[k + 1..])
  {
    assert t == t[..k] + ([t[k]] + t[k + 1..]);
    CountNewlinesAppend(t[..k], [t[k]] + t[k + 1..]);
    CountNewlinesNone(t[..k]);
  }

  /** Reads the file line by line and counts the lines that end in a
      newline; a missing file has none. */
  method LineCount(file: Option<string>) returns (count: nat)
    ensures file.None? ==> count == 0
    ensures file.Some? ==> count == CountNewlines(file.value)
  {
    if file.None? {
      return 0;
    }
    var s := file.value;
    var pos := 0;
    count := 0;
    while true
      invariant 0 <= pos <= |s|
      invariant count + CountNewlines(s[pos..]) == CountNewlines(s)
      decreases |s| - pos
    {
      match IndexOf(s[pos..], '\n')
      case None =>
        CountNewlinesNone(s[pos..]);
        break;
      case Some(k) =>
        CountNewlinesAt(s[pos..], k);
        assert s[pos..][k + 1..] == s[pos + k + 1..];
        pos := pos + k + 1;
        count := count + 1;
    }
  }

  lemma ItoaHasNoNewline(n: int)
    ensures '\n' !in Itoa(n) && ',' !in Itoa(n)
  {
    var s := Itoa(n);
    if n < 0 {
      assert s == "-" + NatDigits(-n);
      var d := NatDigits(-n);
      assert forall k :: 0 <= k < |d| ==> IsDigit(d[k]);
      assert forall k :: 0 <= k < |s| ==> s[k] == '-' || IsDigit(s[k]);
    } else {
      assert forall k :: 0 <= k < |s| ==> IsDigit(s[k]);
    }
  }

  lemma OneLine(text: string)
    requires '\n' !in text
    ensures CountNewlines(text + "\n") == 1
  {
    CountNewlinesAppend(text, "\n");
    CountNewlinesNone(text);
  }

  lemma HeaderIsOneLine()
    ensures CountNewlines(Header) == 1
  {
    var text := "timestamp,ac_connected,battery_life";
    assert Header == text + "\n";
    OneLine(text);
  }

  lemma CsvRowIsOneLine(timestamp: string, ac: bool, pct: int)
    requires '\n' !in timestamp
    ensures CountNewlines(CsvRow(timestamp, ac, pct)) == 1
  {
    var middle := "," + (if ac then "1" else "0") + ",";
    var digits := Itoa(pct);
    ItoaHasNoNewline(pct);
    assert CsvRow(timestamp, ac, pct) == timestamp + (middle + (digits + "\n"));
    CountNewlinesAppend(timestamp, middle + (digits + "\n"));
    CountNewlinesAppend(middle, digits + "\n");
    CountNewlinesAppend(digits, "\n");
    CountNewlinesNone(timestamp);
    CountNewlinesNone(middle);
    CountNewlinesNone(digits);
  }

  /** Each `AppendCSV` adds one line to an existing file and two (header and
      row) to a new one, as long as the timestamp holds no newline. */
  lemma AppendCSVAddsLines(file: Option<string>, timestamp: string, ac: bool, pct: int)
    requires '\n' !in timestamp
    ensures CountNewlines(AppendCSV(file, timestamp, ac, pct))
         == (if file.None? then 2 else CountNewlines(file.value) + 1)
  {
    CsvRowIsOneLine(timestamp, ac, pct);
    if file.None? {
      HeaderIsOneLine();
      CountNewlinesAppend(Header, CsvRow(timestamp, ac, pct));
    } else {
      CountNewlinesAppend(file.value, CsvRow(timestamp, ac, pct));
    }
  }

  // ---------------------------------------------------------------------
  // extractLinesFromEnd, readLinesBackward

  /** The position of the last newline in `s`. */
  function LastNewline(s: string): (r: Option<nat>)
    ensures r.Some? ==> r.value < |s| && s[r.value] == '\n'
  {
    if |s| == 0 then None
    else if s[|s| - 1] == '\n' then Some(|s| - 1)
    else LastNewline(s[..|s| - 1])
  }

  /** `LastNewline` finds no newline exactly when there is none. */
  lemma {:induction false} LastNewlineNone(s: string)
    ensures LastNewline(s).None? <==> '\n' !in s
  {
    if s != [] && s[|s| - 1] != '\n' {
      assert s == s[..|s| - 1] + [s[|s| - 1]];
      LastNewlineNone(s[..|s| - 1]);
    }
  }

  /** A newline with none after it is the last one. */
  lemma {:induction false} LastNewlineAt(s: string, i: nat)
    requires i < |s| && s[i] == '\n' && '\n' !in s[i + 1..]
    ensures LastNewline(s) == Some(i)
  {
    if i < |s| - 1 {
      assert s[|s| - 1] in s[i + 1..];
      assert s[..|s| - 1][i + 1..] == s[i + 1..|s| - 1];
      assert '\n' !in s[i + 1..|s| - 1];
      LastNewlineAt(s[..|s| - 1], i);
    }
  }

  /** Nothing after the last newline is a newline. */
  lemma {:induction false} LastNewlineIsLast(s: string)
    requires LastNewline(s).Some?
    ensures '\n' !in s[LastNewline(s).value + 1..]
  {
    if s[|s| - 1] != '\n' {
      var i := LastNewline(s).value;
      LastNewlineIsLast(s[..|s| - 1]);
      assert s[i + 1..] == s[..|s| - 1][i + 1..] + [s[|s| - 1]];
    }
  }

  /** Lines taken from the end of `buf`, newest first: the text after each
      newline, empty text skipped, appended to `lines` until it holds `n`;
      the second component is what is left in front of the last newline
      consumed. */
  function ExtractLines(buf: string, lines: seq<string>, n: int): (seq<string>, string)
    decreases |buf|
  {
    if |lines| >= n then (lines, buf)
    else match LastNewline(buf)
      case None => (lines, buf)
      case Some(i) =>
        var line := buf[i + 1..];
        ExtractLines(buf[..i], if line != [] then lines + [line] else lines, n)
  }

  /** `extractLinesFromEnd`: one backward pass over `buf`. */
  method ExtractLinesFromEnd(buf0: string, lines0: seq<string>, n: int)
    returns (lines: seq<string>, buf: string)
    ensures (lines, buf) == ExtractLines(buf0, lines0, n)
  {
    lines, buf := lines0, buf0;
    var i := |buf0| - 1;
    while i >= 0 && |lines| < n
      invariant -1 <= i < |buf|
      invariant '\n' !in buf[i + 1..]
      invariant ExtractLines(buf, lines, n) == ExtractLines(buf0, lines0, n)
      decreases i + 1
    {
      if buf[i] == '\n' {
        LastNewlineAt(buf, i);
        var line := buf[i + 1..];
        if line != "" {
          lines := lines + [line];
        }
        buf := buf[..i];
      } else {
        assert buf[i..] == [buf[i]] + buf[i + 1..];
      }
      i := i - 1;
    }
    if i == -1 {
      assert buf[i + 1..] == buf;
      LastNewlineNone(buf);
    }
  }

  /** Every line taken is non-empty and holds no newline, the lines held
      never exceed `n`, and what is left is a prefix of `buf` ending just
      before a newline, or all of `buf`. */
  lemma {:induction false} ExtractLinesShape(buf: string, lines: seq<string>, n: int)
    ensures var (out, rest) := ExtractLines(buf, lines, n);
      |lines| <= |out| && out[..|lines|] == lines &&
      (forall k :: |lines| <= k < |out| ==> out[k] != [] && '\n' !in out[k]) &&
      (|lines| <= n ==> |out| <= n) &&
      |rest| <= |buf| && rest == buf[..|rest|] &&
      (rest != buf ==> buf[|rest|] == '\n')
    decreases |buf|
  {
    if |lines| < n {
      match LastNewline(buf)
      case None =>
      case Some(i) =>
        LastNewlineIsLast(buf);
        var line := buf[i + 1..];
        var next := if line != [] then lines + [line] else lines;
        ExtractLinesShape(buf[..i], next, n);
    }
  }

  /** Extraction stops only with `n` lines held or no newline left. */
  lemma {:induction false} ExtractLinesStops(buf: string, lines: seq<string>, n: int)
    ensures var (out, rest) := ExtractLines(buf, lines, n);
      |out| >= n || '\n' !in rest
    decreases |buf|
  {
    if |lines| < n {
      match LastNewline(buf)
      case None =>
        LastNewlineNone(buf);
      case Some(i) =>
        var line := buf[i + 1..];
        ExtractLinesStops(buf[..i], if line != [] then lines + [line] else lines, n);
    }
  }

  lemma {:induction false} LastNewlineSkip(a: string, x: string)
    requires '\n' !in x
    ensures LastNewline(a + x) == LastNewline(a)
    decreases |x|
  {
    if x != [] {
      var y := x[..|x| - 1];
      assert (a + x)[..|a + x| - 1] == a + y;
      assert x[|x| - 1] in x;
      assert (a + x)[|a + x| - 1] == x[|x| - 1];
      assert '\n' !in y;
      LastNewlineSkip(a, y);
    } else {
      assert a + x == a;
    }
  }

  lemma {:induction false} LastNewlineShift(a: string, b: string)
    requires LastNewline(b).Some?
    ensures LastNewline(a + b) == Some(|a| + LastNewline(b).value)
    decreases |b|
  {
    if b[|b| - 1] != '\n' {
      var y := b[..|b| - 1];
      assert (a + b)[..|a + b| - 1] == a + y;
      LastNewlineShift(a, y);
    }
  }

  /** Extraction can be done piecewise: extracting from `b` first and then
      from `a` joined to what `b` left gives the same result as extracting
      from `a + b` at once. */
  lemma {:induction false} ExtractLinesAppend(a: string, b: string, lines: seq<string>, n: int)
    ensures ExtractLines(a + b, lines, n)
         == ExtractLines(a + ExtractLines(b, lines, n).1, ExtractLines(b, lines, n).0, n)
    decreases |b|
  {
    if |lines| < n {
      match LastNewline(b)
      case None =>
        LastNewlineNone(b);
        LastNewlineSkip(a, b);
        assert ExtractLines(b, lines, n) == (lines, b);
      case Some(i) =>
        LastNewlineShift(a, b);
        assert (a + b)[|a| + i + 1..] == b[i + 1..];
        assert (a + b)[..|a| + i] == a + b[..i];
        var line := b[i + 1..];
        var next := if line != [] then lines + [line] else lines;
        assert ExtractLines(b, lines, n) == ExtractLines(b[..i], next, n);
        assert ExtractLines(a + b, lines, n) == ExtractLines(a + b[..i], next, n);
        ExtractLinesAppend(a, b[..i], next, n);
    }
  }

  const Chunk: nat := 8192

  /** What `readLinesBackward` returns for a file: the lines taken from the
      end, plus the text before the first newline when fewer than `n` were
      found. */
  function ReadBackward(data: string, n: int): seq<string>
  {
    WithPartial(ExtractLines(data, [], n), n)
  }

  /** The lines taken, followed by the unfinished text when fewer than `n`
      lines were found and the text is not empty. */
  function WithPartial(taken: (seq<string>, string), n: int): seq<string>
  {
    var (lines, rest) := taken;
    if |lines| < n && |rest| > 0 then lines + [rest] else lines
  }

  /** Reads the file backward in chunks of 8192 bytes, carrying the
      unfinished line from chunk to chunk; `read` counts the bytes read.
      The loop goes on while at most `n` lines are held, and extraction never
      holds more than `n`, so the whole file is read whenever `n` is not
      negative (see Findings). */
  method ReadLinesBackward(data: string, n: int) returns (lines: seq<string>, read: nat)
    ensures lines == ReadBackward(data, n)
    ensures read <= |data|
    ensures 0 <= n ==> read == |data|
  {
    var pos := |data|;
    lines := [];
    var partial: string := [];
    assert data[pos..] == [];
    while pos > 0 && |lines| <= n
      invariant 0 <= pos <= |data|
      invariant (lines, partial) == ExtractLines(data[pos..], [], n)
    {
      var readSize := if pos > Chunk then Chunk else pos;
      var suffix := data[pos..];
      pos := pos - readSize;
      var tmp := data[pos..pos + readSize];
      assert data[pos..] == tmp + suffix;
      ExtractLinesAppend(tmp, suffix, [], n);
      var buf := tmp + partial;
      lines, buf := ExtractLinesFromEnd(buf, lines, n);
      partial := buf;
    }
    if pos > 0 {
      ExtractLinesShape(data[pos..], [], n);
      assert n < 0;
    }
    read := |data| - pos;
    if |lines| < n && |partial| > 0 {
      lines := lines + [partial];
    }
  }

  /** The loop with the guard `len(lines) < n`: the same lines, but it stops
      reading as soon as `n` lines are held. */
  method ReadLinesBackwardStopping(data: string, n: int) returns (lines: seq<string>, read: nat)
    ensures lines == ReadBackward(data, n)
    ensures read <= |data|
    ensures read < |data| ==> n <= |lines|
    ensures read < |data| ==> n <= |ExtractLines(data[|data| - read..], [], n).0|
  {
    var pos := |data|;
    lines := [];
    var partial: string := [];
    assert data[pos..] == [];
    while pos > 0 && |lines| < n
      invariant 0 <= pos <= |data|
      invariant (lines, partial) == ExtractLines(data[pos..], [], n)
    {
      var readSize := if pos > Chunk then Chunk else pos;
      var suffix := data[pos..];
      pos := pos - readSize;
      var tmp := data[pos..pos + readSize];
      assert data[pos..] == tmp + suffix;
      ExtractLinesAppend(tmp, suffix, [], n);
      var buf := tmp + partial;
      lines, buf := ExtractLinesFromEnd(buf, lines, n);
      partial := buf;
    }
    read := |data| - pos;
    assert data[|data| - read..] == data[pos..];
    if pos > 0 {
      assert data == data[..pos] + data[pos..];
      ExtractLinesAppend(data[..pos], data[pos..], [], n);
      assert ExtractLines(data, [], n) == (lines, data[..pos] + partial);
    }
    if |lines| < n && |partial| > 0 {
      lines := lines + [partial];
    }
  }

  // ---------------------------------------------------------------------
  // reverseStrings, tailLastLines

  function Reversed(s: seq<string>): (r: seq<string>)
    ensures |r| == |s|
  {
    seq(|s|, i requires 0 <= i < |s| => s[|s| - 1 - i])
  }

  lemma ReversedSnoc(s: seq<string>, x: string)
    ensures Reversed(s + [x]) == [x] + Reversed(s)
  {
    var l, r := Reversed(s + [x]), [x] + Reversed(s);
    assert |l| == |r|;
    forall i | 0 <= i < |l|
      ensures l[i] == r[i]
    {
      if i > 0 {
        assert (s + [x])[|s| - i] == s[|s| - 1 - (i - 1)];
      }
    }
  }

  lemma ReversedTwice(s: seq<string>)
    ensures Reversed(Reversed(s)) == s
  {
  }

  /** `reverseStrings`: swaps from both ends toward the middle. */
  method ReverseStrings(a: array<string>)
    modifies a
    ensures a[..] == Reversed(old(a[..]))
  {
    var i, j := 0, a.Length - 1;
    while i < j
      invariant 0 <= i <= j + 1 <= a.Length && i + j == a.Length - 1
      invariant forall k :: 0 <= k < i || j < k < a.Length ==> a[k] == old(a[a.Length - 1 - k])
      invariant forall k :: i <= k <= j ==> a[k] == old(a[k])
    {
      a[i], a[j] := a[j], a[i];
      i, j := i + 1, j - 1;
    }
  }

  function EnsureNewline(s: string): string
  {
    if HasSuffix(s, "\n") then s else s + "\n"
  }

  function Terminated(lines: seq<string>): (r: seq<string>)
    ensures |r| == |lines|
  {
    seq(|lines|, i requires 0 <= i < |lines| => EnsureNewline(lines[i]))
  }

  /** What `tailLastLines` returns: nothing for an empty file, otherwise
      the lines read backward, put back in file order, each ending in a
      newline. */
  function Tail(data: string, n: int): (r: seq<string>)
    ensures |data| == 0 ==> r == []
  {
    if |data| == 0 then [] else Terminated(Reversed(ReadBackward(data, n)))
  }

  /** The last step of `tailLastLines`: a newline is added to each line
      that lacks one. */
  method TerminateLines(a: array<string>)
    modifies a
    ensures a[..] == Terminated(old(a[..]))
  {
    var i := 0;
    while i < a.Length
      invariant 0 <= i <= a.Length
      invariant forall k :: 0 <= k < i ==> a[k] == EnsureNewline(old(a[k]))
      invariant forall k :: i <= k < a.Length ==> a[k] == old(a[k])
    {
      var line := a[i];
      if !HasSuffix(line, "\n") {
        a[i] := line + "\n";
      }
      i := i + 1;
    }
  }

  method TailLastLines(data: string, n: int) returns (lines: seq<string>)
    ensures lines == Tail(data, n)
  {
    if |data| == 0 {
      return [];
    }
    var back, _ := ReadLinesBackward(data, n);
    var a := new string[|back|](i requires 0 <= i < |back| => back[i]);
    assert a[..] == back;
    ReverseStrings(a);
    TerminateLines(a);
    lines := a[..];
  }

  /** Every line of the tail ends in a newline. */
  lemma TailLinesEndInNewline(data: string, n: int)
    ensures forall k :: 0 <= k < |Tail(data, n)| ==> HasSuffix(Tail(data, n)[k], "\n")
  {
    forall k | 0 <= k < |Tail(data, n)|
      ensures HasSuffix(Tail(data, n)[k], "\n")
    {
      var s := Reversed(ReadBackward(data, n))[k];
      assert Tail(data, n)[k] == EnsureNewline(s);
      if !HasSuffix(s, "\n") {
        assert (s + "\n")[|s + "\n"| - 1..] == "\n";
      }
    }
  }

  // ---------------------------------------------------------------------
  // Tails of well-formed files

  /** The file holding `ls`, each followed by a newline. */
  function Unlines(ls: seq<string>): string
  {
    if ls == [] then "" else Unlines(ls[..|ls| - 1]) + ls[|ls| - 1] + "\n"
  }

  /** Lines as `AppendCSV` writes them: non-empty, without a newline. */
  predicate PlainLines(ls: seq<string>)
  {
    forall k :: 0 <= k < |ls| ==> ls[k] != [] && '\n' !in ls[k]
  }

  /** One backward step over `Unlines(q) + x`: the text `x` after the last
      newline is taken (when non-empty) and the last line of `q` becomes the
      unfinished text. */
  lemma ExtractLinesStep(q: seq<string>, x: string, lines: seq<string>, n: int)
    requires q != [] && '\n' !in x && |lines| < n
    ensures ExtractLines(Unlines(q) + x, lines, n)
         == ExtractLines(Unlines(q[..|q| - 1]) + q[|q| - 1],
                         if x != [] then lines + [x] else lines, n)
  {
    var front := Unlines(q[..|q| - 1]) + q[|q| - 1];
    var s := Unlines(q) + x;
    assert s == (front + "\n") + x;
    LastNewlineSkip(front + "\n", x);
    assert LastNewline(s) == Some(|front|);
    assert s[|front| + 1..] == x;
    assert s[..|front|] == front;
  }

  /** The same step when nothing follows the last newline. */
  lemma ExtractLinesStepEmpty(q: seq<string>, lines: seq<string>, n: int)
    requires q != [] && |lines| < n
    ensures ExtractLines(Unlines(q), lines, n)
         == ExtractLines(Unlines(q[..|q| - 1]) + q[|q| - 1], lines, n)
  {
    var front := Unlines(q[..|q| - 1]) + q[|q| - 1];
    var s := Unlines(q);
    assert s == front + "\n";
    assert LastNewline(s) == Some(|front|);
    assert s[|front| + 1..] == [];
    assert s[..|front|] == front;
  }

  function Min(a: int, b: int): int { if a < b then a else b }

  /** The first `k` elements of `s`, or all of it. */
  function Take(s: seq<string>, k: int): (r: seq<string>)
    ensures |r| == if k < 0 then 0 else Min(k, |s|)
  {
    if k <= 0 then [] else s[..Min(k, |s|)]
  }

  lemma TakeCons(x: string, s: seq<string>, k: int)
    requires 1 <= k
    ensures Take([x] + s, k) == [x] + Take(s, k - 1)
  {
    if k > 1 {
      assert ([x] + s)[..Min(k, |s| + 1)] == [x] + s[..Min(k - 1, |s|)];
    }
  }

  /** Reading backward over well-formed lines `q` followed by unfinished
      non-empty text `x` yields `x` and then the lines of `q`, newest first,
      until `n` are held. */
  lemma {:induction false} ReadBackwardOfLines(q: seq<string>, x: string, lines: seq<string>, n: int)
    requires PlainLines(q) && x != [] && '\n' !in x && |lines| <= n
    ensures WithPartial(ExtractLines(Unlines(q) + x, lines, n), n)
         == lines + Take(Reversed(q + [x]), n - |lines|)
    decreases |q|
  {
    if |lines| == n {
      ReadBackwardHeld(Unlines(q) + x, lines, n, Reversed(q + [x]));
    } else if q == [] {
      ReadBackwardLast(x, lines, n);
    } else {
      var front, last := q[..|q| - 1], q[|q| - 1];
      PlainLinesFront(q);
      ReadBackwardOfLines(front, last, lines + [x], n);
      assert front + [last] == q;
      ReadBackwardStep(q, x, lines, n);
    }
  }

  lemma ReadBackwardHeld(buf: string, lines: seq<string>, n: int, r: seq<string>)
    requires |lines| == n
    ensures WithPartial(ExtractLines(buf, lines, n), n) == lines + Take(r, n - |lines|)
  {
    assert ExtractLines(buf, lines, n) == (lines, buf);
    assert lines + Take(r, 0) == lines;
  }

  lemma ReadBackwardLast(x: string, lines: seq<string>, n: int)
    requires x != [] && '\n' !in x && |lines| < n
    ensures WithPartial(ExtractLines(Unlines([]) + x, lines, n), n)
         == lines + Take(Reversed([] + [x]), n - |lines|)
  {
    assert Unlines([]) + x == x;
    LastNewlineNone(x);
    assert ExtractLines(x, lines, n) == (lines, x);
    assert [] + [x] == [x];
    assert Reversed([x]) == [x];
    assert Take([x], n - |lines|) == [x];
  }

  /** The inductive step: what the shorter read yields, with `x` in front,
      is what the longer one yields. */
  lemma ReadBackwardStep(q: seq<string>, x: string, lines: seq<string>, n: int)
    requires q != [] && x != [] && '\n' !in x && |lines| < n
    requires WithPartial(ExtractLines(Unlines(q[..|q| - 1]) + q[|q| - 1], lines + [x], n), n)
      == (lines + [x]) + Take(Reversed(q), n - |lines| - 1)
    ensures WithPartial(ExtractLines(Unlines(q) + x, lines, n), n)
         == lines + Take(Reversed(q + [x]), n - |lines|)
  {
    var k := n - |lines|;
    var t := Take(Reversed(q), k - 1);
    ExtractLinesStep(q, x, lines, n);
    assert WithPartial(ExtractLines(Unlines(q) + x, lines, n), n) == (lines + [x]) + t;
    assert (lines + [x]) + t == lines + ([x] + t);
    ReversedSnoc(q, x);
    TakeCons(x, Reversed(q), k);
  }

  lemma PlainLinesFront(q: seq<string>)
    requires PlainLines(q) && q != []
    ensures PlainLines(q[..|q| - 1]) && q[|q| - 1] != [] && '\n' !in q[|q| - 1]
  {
    var front := q[..|q| - 1];
    forall k | 0 <= k < |front|
      ensures front[k] != [] && '\n' !in front[k]
    {
      assert front[k] == q[k];
    }
  }

  lemma EnsureNewlineOfPlain(s: string)
    requires '\n' !in s
    ensures EnsureNewline(s) == s + "\n"
  {
    if |s| >= 1 {
      assert s[|s| - 1..][0] == s[|s| - 1];
      assert s[|s| - 1] in s;
    }
  }

  /** Reading a file of well-formed lines backward yields its last `n`
      lines, newest first. */
  lemma ReadBackwardOfPlain(ls: seq<string>, n: int)
    requires PlainLines(ls) && 0 <= n
    ensures ReadBackward(Unlines(ls), n) == Take(Reversed(ls), n)
  {
    if ls == [] {
      assert Unlines(ls) == "";
      ReadBackwardNothing("", n, Reversed(ls));
    } else if n == 0 {
      ReadBackwardNothing(Unlines(ls), n, Reversed(ls));
    } else {
      var front, last := ls[..|ls| - 1], ls[|ls| - 1];
      PlainLinesFront(ls);
      assert ls == front + [last];
      ReadBackwardOfLastLine(front, last, n);
    }
  }

  lemma ReadBackwardOfLastLine(front: seq<string>, last: string, n: int)
    requires PlainLines(front) && last != [] && '\n' !in last && 0 < n
    ensures ReadBackward(Unlines(front + [last]), n) == Take(Reversed(front + [last]), n)
  {
    var ls := front + [last];
    assert ls[..|ls| - 1] == front && ls[|ls| - 1] == last;
    ExtractLinesStepEmpty(ls, [], n);
    ReadBackwardOfLines(front, last, [], n);
    assert [] + Take(Reversed(ls), n) == Take(Reversed(ls), n);
  }

  /** An empty file, or no lines wanted, reads as nothing. */
  lemma ReadBackwardNothing(buf: string, n: int, r: seq<string>)
    requires n == 0 || (buf == [] && r == [])
    ensures ReadBackward(buf, n) == [] && Take(r, n) == []
  {
    if buf == [] {
      assert LastNewline(buf) == None;
    }
  }

  /** Putting the newest `n` back in order gives the last `n`. */
  lemma ReversedTake(ls: seq<string>, n: int)
    requires 0 <= n
    ensures Reversed(Take(Reversed(ls), n)) == LastN(ls, n)
  {
    var a, b := Reversed(Take(Reversed(ls), n)), LastN(ls, n);
    assert |a| == |b|;
    forall i | 0 <= i < |a|
      ensures a[i] == b[i]
    {
    }
  }

  /** Well-formed lines each get their newline added. */
  lemma TerminatedPlain(ls: seq<string>)
    requires PlainLines(ls)
    ensures Terminated(ls) == seq(|ls|, i requires 0 <= i < |ls| => ls[i] + "\n")
  {
    forall i | 0 <= i < |ls|
      ensures Terminated(ls)[i] == ls[i] + "\n"
    {
      EnsureNewlineOfPlain(ls[i]);
    }
  }

  lemma LastNPlain(ls: seq<string>, n: nat)
    requires PlainLines(ls)
    ensures PlainLines(LastN(ls, n))
  {
    var last := LastN(ls, n);
    forall k | 0 <= k < |last|
      ensures last[k] != [] && '\n' !in last[k]
    {
      assert last[k] == ls[|ls| - |last| + k];
    }
  }

  /** The tail of a file of well-formed lines is its last `n` lines in file
      order, or all of them when it holds fewer. */
  lemma TailOfLines(ls: seq<string>, n: nat)
    requires PlainLines(ls)
    ensures var l := LastN(ls, n);
      Tail(Unlines(ls), n) == seq(|l|, i requires 0 <= i < |l| => l[i] + "\n")
  {
    if ls == [] {
      assert Unlines(ls) == "";
    } else {
      var text := Unlines(ls);
      assert text == Unlines(ls[..|ls| - 1]) + ls[|ls| - 1] + "\n";
      ReadBackwardOfPlain(ls, n);
      ReversedTake(ls, n);
      assert Tail(text, n) == Terminated(LastN(ls, n));
      LastNPlain(ls, n);
      TerminatedPlain(LastN(ls, n));
    }
  }

  // ---------------------------------------------------------------------
  // TrimToLast

  /** What `ReadString('\n')` returns first: up to and including the first
      newline, or the whole content when there is none. */
  function FirstLine(s: string): (r: string)
    ensures |r| <= |s| && r == s[..|r|]
    ensures '\n' !in s ==> r == s
    ensures '\n' in s ==> r != [] && r[|r| - 1] == '\n' && '\n' !in r[..|r| - 1]
  {
    match IndexOf(s, '\n')
    case None => s
    case Some(i) => s[..i + 1]
  }

  function Concat(ls: seq<string>): string
  {
    if ls == [] then "" else Concat(ls[..|ls| - 1]) + ls[|ls| - 1]
  }

  /** The file `TrimToLast(maxDataLines)` writes, or `None` (nothing done)
      when the file does not exist. The tail is read from the start of the
      file, header included. */
  function TrimToLast(file: Option<string>, maxDataLines: int): (r: Option<string>)
    ensures file.None? <==> r.None?
  {
    match file
    case None => None
    case Some(s) => Some(FirstLine(s) + Concat(Tail(s, maxDataLines)))
  }

  /** The last `n` of `ls`, or all of them. */
  function LastN(ls: seq<string>, n: nat): (r: seq<string>)
    ensures |r| == Min(n, |ls|)
    ensures forall i :: 0 <= i < |r| ==> r[i] == ls[|ls| - |r| + i]
  {
    ls[|ls| - Min(n, |ls|)..]
  }

  lemma {:induction false} ConcatOfTerminated(ls: seq<string>)
    ensures Concat(seq(|ls|, i requires 0 <= i < |ls| => ls[i] + "\n")) == Unlines(ls)
  {
    if ls != [] {
      var t := seq(|ls|, i requires 0 <= i < |ls| => ls[i] + "\n");
      var front := ls[..|ls| - 1];
      assert t[..|t| - 1] == seq(|front|, i requires 0 <= i < |front| => front[i] + "\n");
      ConcatOfTerminated(front);
      assert Unlines(front) + (ls[|ls| - 1] + "\n") == Unlines(front) + ls[|ls| - 1] + "\n";
    }
  }

  /** Writing out the tail of a file of well-formed lines gives back the
      file of its last `n` lines. */
  lemma TailConcat(ls: seq<string>, n: nat)
    requires PlainLines(ls)
    ensures Concat(Tail(Unlines(ls), n)) == Unlines(LastN(ls, n))
  {
    TailOfLines(ls, n);
    ConcatOfTerminated(LastN(ls, n));
  }

  lemma {:induction false} UnlinesCons(h: string, ls: seq<string>)
    ensures Unlines([h] + ls) == h + "\n" + Unlines(ls)
  {
    if ls == [] {
      assert [h] + ls == [h];
      assert Unlines([h]) == Unlines([]) + h + "\n";
    } else {
      var front := ls[..|ls| - 1];
      assert ([h] + ls)[..|ls|] == [h] + front;
      UnlinesCons(h, front);
    }
  }

  lemma FirstLineOfLine(h: string, rest: string)
    requires '\n' !in h
    ensures FirstLine(h + "\n" + rest) == h + "\n"
  {
    var s := h + "\n" + rest;
    assert s[|h|] == '\n';
    assert s[..|h|] == h;
    assert s[..|h| + 1] == h + "\n";
  }

  lemma PlainLinesRest(h: string, data: seq<string>)
    requires PlainLines([h] + data)
    ensures PlainLines(data)
  {
    forall k | 0 <= k < |data|
      ensures data[k] != [] && '\n' !in data[k]
    {
      assert data[k] == ([h] + data)[k + 1];
    }
  }

  lemma LastNCons(h: string, data: seq<string>, n: nat)
    requires n <= |data|
    ensures LastN([h] + data, n) == LastN(data, n)
  {
    assert ([h] + data)[|data| + 1 - n..] == data[|data| - n..];
  }

  /** Trimming a file that holds at least `n` data lines keeps the header
      and the last `n` data lines. */
  lemma TrimToLastOfLongFile(h: string, data: seq<string>, n: nat)
    requires PlainLines([h] + data) && n <= |data|
    ensures TrimToLast(Some(Unlines([h] + data)), n) == Some(Unlines([h] + LastN(data, n)))
  {
    var ls := [h] + data;
    assert h == ls[0];
    PlainLinesRest(h, data);
    UnlinesCons(h, data);
    FirstLineOfLine(h, Unlines(data));
    TailConcat(ls, n);
    LastNCons(h, data, n);
    UnlinesCons(h, LastN(data, n));
  }

  /** Finding: the tail is read from the start of the file, so when the
      file holds fewer than `n` data lines the header is among the lines
      kept, and the trimmed file starts with the header twice. */
  lemma TrimToLastDuplicatesHeader(h: string, data: seq<string>, n: nat)
    requires PlainLines([h] + data) && |data| < n
    ensures TrimToLast(Some(Unlines([h] + data)), n) == Some(h + "\n" + (h + "\n" + Unlines(data)))
  {
    var ls := [h] + data;
    assert h == ls[0];
    UnlinesCons(h, data);
    FirstLineOfLine(h, Unlines(data));
    TailConcat(ls, n);
    assert LastN(ls, n) == ls;
  }

  /** `TrimToLast` as its comment describes it: the header, then the last
      `maxDataLines` lines read from the data after the header. */
  function TrimToLastFixed(file: Option<string>, maxDataLines: int): (r: Option<string>)
    ensures file.None? <==> r.None?
  {
    match file
    case None => None
    case Some(s) =>
      var header := FirstLine(s);
      Some(header + Concat(Tail(s[|header|..], maxDataLines)))
  }

  /** The corrected trim keeps the header once and the last `n` data lines,
      whatever the number of data lines. */
  lemma TrimToLastFixedKeepsHeaderOnce(h: string, data: seq<string>, n: nat)
    requires PlainLines([h] + data)
    ensures TrimToLastFixed(Some(Unlines([h] + data)), n) == Some(Unlines([h] + LastN(data, n)))
  {
    var ls := [h] + data;
    assert h == ls[0];
    PlainLinesRest(h, data);
    UnlinesCons(h, data);
    FirstLineOfLine(h, Unlines(data));
    var s := Unlines(ls);
    assert s[|h + "\n"|..] == Unlines(data);
    TailConcat(data, n);
    UnlinesCons(h, LastN(data, n));
  }
}

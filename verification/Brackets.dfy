/** The bracket matcher of cpplint.py, forwards and backwards over lines. */
module Brackets {

  predicate IsOpen(c: char) { c == '(' || c == '[' || c == '{' }

  predicate IsClose(c: char) { c == ')' || c == ']' || c == '}' }

  function Closer(c: char): (d: char)
    requires IsOpen(c)
    ensures IsClose(d)
  {
    if c == '(' then ')' else if c == '[' then ']' else '}'
  }

  predicate IsSpace(c: char) {
    c == ' ' || c == '\t' || c == '\n' || c == '\r' || c as int == 11 || c as int == 12
  }

  predicate IsWord(c: char) {
    'a' <= c <= 'z' || 'A' <= c <= 'Z' || '0' <= c <= '9' || c == '_'
  }

  function Stripped(line: string, n: nat): (e: nat)
    requires n <= |line|
    ensures e <= n
  {
    if n > 0 && IsSpace(line[n - 1]) then Stripped(line, n - 1) else n
  }

  /** The first n characters end in the word operator and white space. */
  predicate OperatorBefore(line: string, n: nat)
    requires n <= |line|
  {
    var e := Stripped(line, n);
    e >= 8 && line[e - 8..e] == "operator" && (e == 8 || !IsWord(line[e - 9]))
  }

  /** ">=" between white space, from k on */
  predicate SpacedGe(line: string, k: nat) {
    k + 3 < |line| && IsSpace(line[k]) && line[k + 1] == '>' && line[k + 2] == '=' && IsSpace(line[k + 3])
  }

  /** What a scan of a line gives: the place it looked for, or that there is none, or the stack at the
      end of the line. The top of the stack is at its end. */
  datatype Scan = At(pos: nat) | Lost | More(stack: string)

  function Top(stack: string): (c: char)
    requires stack != ""
  {
    stack[|stack| - 1]
  }

  function Pop(stack: string): (s: string)
    requires stack != ""
  {
    stack[..|stack| - 1]
  }

  function DropTop(stack: string, c: char): (s: string) {
    if stack != "" && Top(stack) == c then DropTop(Pop(stack), c) else stack
  }

  // ---------- One line ----------

  /** What FindEndOfExpressionInLine does with the character i. */
  function EndStep(line: string, i: nat, stack: string): (r: Scan)
    requires i < |line|
  {
    var c := line[i];
    if IsOpen(c) then More(stack + [c])
    else if c == '<' then
      if i > 0 && line[i - 1] == '<' then
        if stack != "" && Top(stack) == '<' then if Pop(stack) == "" then Lost else More(Pop(stack)) else More(stack)
      else if i > 0 && OperatorBefore(line, i) then More(stack)
      else More(stack + ['<'])
    else if IsClose(c) then
      var s := DropTop(stack, '<');
      if s == "" || !IsOpen(Top(s)) || Closer(Top(s)) != c then Lost
      else if Pop(s) == "" then At(i + 1)
      else More(Pop(s))
    else if c == '>' then
      if i > 0 && (line[i - 1] == '-' || OperatorBefore(line, i - 1)) then More(stack)
      else if stack != "" && Top(stack) == '<' then if Pop(stack) == "" then At(i + 1) else More(Pop(stack))
      else More(stack)
    else if c == ';' then
      var s := DropTop(stack, '<');
      if s == "" then Lost else More(s)
    else More(stack)
  }

  /** FindEndOfExpressionInLine */
  function FindEnd(line: string, i: nat, stack: string): (r: Scan)
    requires i <= |line|
    decreases |line| - i
  {
    if i == |line| then More(stack)
    else
      var r := EndStep(line, i, stack);
      if r.More? then FindEnd(line, i + 1, r.stack) else r
  }

  /** What FindStartOfExpressionInLine does with the character i, and where it goes on. */
  function StartStep(line: string, i: nat, stack: string): (r: (Scan, int))
    requires i < |line|
    ensures r.1 < i
  {
    var c := line[i];
    if IsClose(c) then (More(stack + [c]), i - 1)
    else if c == '>' then
      if i > 0 && (line[i - 1] == '-' || SpacedGe(line, i - 1) || OperatorBefore(line, i)) then (More(stack), i - 2)
      else (More(stack + ['>']), i - 1)
    else if c == '<' then
      if i > 0 && line[i - 1] == '<' then (More(stack), i - 2)
      else if stack != "" && Top(stack) == '>' then (if Pop(stack) == "" then At(i) else More(Pop(stack)), i - 1)
      else (More(stack), i - 1)
    else if IsOpen(c) then
      var s := DropTop(stack, '>');
      (if s == "" || Closer(c) != Top(s) then Lost else if Pop(s) == "" then At(i) else More(Pop(s)), i - 1)
    else if c == ';' then
      var s := DropTop(stack, '>');
      (if s == "" then Lost else More(s), i - 1)
    else (More(stack), i - 1)
  }

  /** FindStartOfExpressionInLine */
  function FindStart(line: string, i: int, stack: string): (r: Scan)
    requires i < |line|
    decreases i + 1
  {
    if i < 0 then More(stack)
    else
      var (r, next) := StartStep(line, i, stack);
      if r.More? then FindStart(line, next, r.stack) else r
  }

  // ---------- Lines ----------

  datatype Place = Nowhere | Place(line: nat, pos: nat)

  /** The rest of CloseExpression after the line l gave r */
  function CloseFrom(lines: seq<string>, l: nat, r: Scan): (p: Place)
    requires l < |lines|
    decreases |lines| - l
  {
    if r.At? then Place(l, r.pos)
    else if r.Lost? || r.stack == "" || l + 1 == |lines| then Nowhere
    else CloseFrom(lines, l + 1, FindEnd(lines[l + 1], 0, r.stack))
  }

  /** CloseExpression: the place past the closing bracket */
  function CloseExpression(lines: seq<string>, l: nat, pos: nat): (p: Place)
    requires l < |lines| && pos < |lines[l]|
  {
    var line := lines[l];
    if !(IsOpen(line[pos]) || line[pos] == '<') ||
       (line[pos] == '<' && pos + 1 < |line| && (line[pos + 1] == '<' || line[pos + 1] == '='))
    then Nowhere
    else CloseFrom(lines, l, FindEnd(line, pos, ""))
  }

  function OpenFrom(lines: seq<string>, l: nat, r: Scan): (p: Place)
    requires l < |lines|
    decreases l
  {
    if r.At? then Place(l, r.pos)
    else if r.Lost? || r.stack == "" || l == 0 then Nowhere
    else OpenFrom(lines, l - 1, FindStart(lines[l - 1], |lines[l - 1]| - 1, r.stack))
  }

  /** ReverseCloseExpression: the place of the opening bracket */
  function ReverseCloseExpression(lines: seq<string>, l: nat, pos: nat): (p: Place)
    requires l < |lines| && pos < |lines[l]|
  {
    if !(IsClose(lines[l][pos]) || lines[l][pos] == '>') then Nowhere
    else OpenFrom(lines, l, FindStart(lines[l], pos, ""))
  }

  // ---------- The loops ----------

  method FindEndOfExpressionInLine(line: string, start: nat, stack: string) returns (r: Scan)
    requires start <= |line|
    ensures r == FindEnd(line, start, stack)
  {
    var s, i := stack, start;
    while i < |line|
      invariant start <= i <= |line| && FindEnd(line, start, stack) == FindEnd(line, i, s)
    {
      var step := EndStep(line, i, s);
      if !step.More? { return step; }
      s, i := step.stack, i + 1;
    }
    return More(s);
  }

  method FindStartOfExpressionInLine(line: string, end: int, stack: string) returns (r: Scan)
    requires end < |line|
    ensures r == FindStart(line, end, stack)
  {
    var s, i := stack, end;
    while i >= 0
      invariant i < |line| && FindStart(line, end, stack) == FindStart(line, i, s)
      decreases i + 1
    {
      var (step, next) := StartStep(line, i, s);
      if !step.More? { return step; }
      s, i := step.stack, next;
    }
    return More(s);
  }

  method Close(lines: seq<string>, linenum: nat, pos: nat) returns (p: Place)
    requires linenum < |lines| && pos < |lines[linenum]|
    ensures p == CloseExpression(lines, linenum, pos)
  {
    var line, l := lines[linenum], linenum;
    if !(IsOpen(line[pos]) || line[pos] == '<') { return Nowhere; }
    if line[pos] == '<' && pos + 1 < |line| && (line[pos + 1] == '<' || line[pos + 1] == '=') { return Nowhere; }
    var r := FindEndOfExpressionInLine(line, pos, "");
    while r.More? && r.stack != "" && l < |lines| - 1
      invariant l < |lines| && CloseExpression(lines, linenum, pos) == CloseFrom(lines, l, r)
      decreases |lines| - l
    {
      l := l + 1;
      r := FindEndOfExpressionInLine(lines[l], 0, r.stack);
    }
    return if r.At? then Place(l, r.pos) else Nowhere;
  }

  method ReverseClose(lines: seq<string>, linenum: nat, pos: nat) returns (p: Place)
    requires linenum < |lines| && pos < |lines[linenum]|
    ensures p == ReverseCloseExpression(lines, linenum, pos)
  {
    var l := linenum;
    if !(IsClose(lines[l][pos]) || lines[l][pos] == '>') { return Nowhere; }
    var r := FindStartOfExpressionInLine(lines[l], pos, "");
    while r.More? && r.stack != "" && l > 0
      invariant l < |lines| && ReverseCloseExpression(lines, linenum, pos) == OpenFrom(lines, l, r)
      decreases l
    {
      l := l - 1;
      r := FindStartOfExpressionInLine(lines[l], |lines[l]| - 1, r.stack);
    }
    return if r.At? then Place(l, r.pos) else Nowhere;
  }
}

/** The line protocol: splitting a line into words, and deciding which request it is. */
module Protocol {
  import opened Decimal

  datatype Command =
    | Register | Login | SaveCharacter | LoadCharacters | EnterWorld | MoveTo | AttackTarget
    | SaveInventoryItem | LoadInventory | Quit

  datatype Request = Request(command: Command, name: string, args: seq<string>)

  datatype ParseError =
    | EmptyCommand
    | UsageOf(command: Command)
    | NotNumeric(command: Command)
    | UnknownCommand(word: string)

  datatype ParseResult = Ok(request: Request) | Error(error: ParseError)

  // ---------- Words ----------

  predicate IsSpace(c: char) {
    c == ' ' || '\t' <= c <= '\r'
  }

  predicate IsWord(w: string) {
    w != "" && forall i :: 0 <= i < |w| ==> !IsSpace(w[i])
  }

  function SkipSpaces(s: string): (t: string)
    ensures |t| <= |s|
    ensures t != "" ==> !IsSpace(t[0])
  {
    if s != "" && IsSpace(s[0]) then SkipSpaces(s[1..]) else s
  }

  function WordLength(s: string): (n: nat)
    ensures n <= |s|
    ensures forall i :: 0 <= i < n ==> !IsSpace(s[i])
    ensures n < |s| ==> IsSpace(s[n])
  {
    if s == "" || IsSpace(s[0]) then 0 else 1 + WordLength(s[1..])
  }

  function Words(s: string): seq<string>
    decreases |s|
  {
    var t := SkipSpaces(s);
    if t == "" then []
    else
      var n := WordLength(t);
      [t[..n]] + Words(t[n..])
  }

  lemma WordLengthUnique(s: string, n: nat)
    requires n <= |s|
    requires forall i :: 0 <= i < n ==> !IsSpace(s[i])
    requires n < |s| ==> IsSpace(s[n])
    ensures WordLength(s) == n
  {
  }

  lemma {:induction false} WordsAreWords(s: string)
    ensures forall i :: 0 <= i < |Words(s)| ==> IsWord(Words(s)[i])
    decreases |s|
  {
    var t := SkipSpaces(s);
    if t == "" {
    } else {
      var n := WordLength(t);
      WordsAreWords(t[n..]);
      assert IsWord(t[..n]);
    }
  }

  lemma {:induction false} SkipSpacesBefore(s: string, c: char, more: string)
    requires IsSpace(c)
    ensures SkipSpaces(s + [c] + more) ==
            if SkipSpaces(s) == "" then SkipSpaces(more) else SkipSpaces(s) + [c] + more
  {
    if s == "" {
      assert ([c] + more)[1..] == more;
      assert s + [c] + more == [c] + more;
    } else {
      assert (s + [c] + more)[1..] == s[1..] + [c] + more;
      if IsSpace(s[0]) {
        SkipSpacesBefore(s[1..], c, more);
      }
    }
  }

  /** Any blank character separates words, wherever it stands and however many there are. */
  lemma BlankSeparates(a: string, c: char, b: string)
    requires c in " \t\n\U{000B}\U{000C}\r"
    ensures Words(a + [c] + b) == Words(a) + Words(b)
  {
    SpaceSeparates(a, c, b);
  }

  lemma {:induction false} SpaceSeparates(a: string, c: char, b: string)
    requires IsSpace(c)
    ensures Words(a + [c] + b) == Words(a) + Words(b)
    decreases |a|
  {
    var t := SkipSpaces(a);
    SkipSpacesBefore(a, c, b);
    SkippedWords(a + [c] + b);
    if t == "" {
      SkippedWords(b);
    } else {
      WordThenBlank(t, c, b);
      SpaceSeparates(t[WordLength(t)..], c, b);
    }
  }

  lemma WordThenBlank(t: string, c: char, b: string)
    requires t != "" && !IsSpace(t[0]) && IsSpace(c)
    ensures Words(t + [c] + b) == [t[..WordLength(t)]] + Words(t[WordLength(t)..] + [c] + b)
  {
    var n := WordLength(t);
    WordLengthUnique(t + [c] + b, n);
    assert (t + [c] + b)[n..] == t[n..] + [c] + b;
    assert (t + [c] + b)[..n] == t[..n];
  }

  lemma {:induction false} SkippedWords(s: string)
    ensures SkipSpaces(SkipSpaces(s)) == SkipSpaces(s) && Words(SkipSpaces(s)) == Words(s)
  {
  }

  // Words separated by single spaces.
  function Join(words: seq<string>): string {
    if words == [] then ""
    else if |words| == 1 then words[0]
    else words[0] + " " + Join(words[1..])
  }

  lemma FirstWord(w: string, rest: string)
    requires IsWord(w) && (rest != "" ==> IsSpace(rest[0]))
    ensures Words(w + rest) == [w] + Words(rest)
  {
    var s := w + rest;
    assert SkipSpaces(s) == s;
    WordLengthUnique(s, |w|);
    assert s[..|w|] == w && s[|w|..] == rest;
  }

  lemma SpaceFirst(s: string)
    ensures Words(" " + s) == Words(s)
  {
    assert (" " + s)[1..] == s;
    assert SkipSpaces(" " + s) == SkipSpaces(s);
  }

  lemma {:induction false} WordsOfJoin(words: seq<string>)
    requires forall i :: 0 <= i < |words| ==> IsWord(words[i])
    ensures Words(Join(words)) == words
  {
    if words == [] {
    } else {
      var w, rest := words[0], words[1..];
      assert IsWord(w) && words == [w] + rest;
      WordsOfJoin(rest);
      if |words| == 1 {
        FirstWord(w, "");
        assert w + "" == w;
      } else {
        FirstWord(w, " " + Join(rest));
        SpaceFirst(Join(rest));
        JoinRest(w, Join(rest), words);
      }
    }
  }

  lemma JoinRest(w: string, rest: string, words: seq<string>)
    requires |words| > 1 && words[0] == w && Join(words[1..]) == rest
    ensures Join(words) == w + (" " + rest)
  {
    assert w + " " + rest == w + (" " + rest);
  }

  // ---------- Commands ----------

  function Upper(s: string): (u: string)
    ensures |u| == |s|
  {
    seq(|s|, i requires 0 <= i < |s| => if 'a' <= s[i] <= 'z' then s[i] - 'a' + 'A' else s[i])
  }

  // The chain of tests on the upper-case command word.
  function Dispatch(command: string, args: seq<string>): ParseResult {
    var name := Upper(command);
    if name == "REGISTER" then
      if |args| != 2 then Error(UsageOf(Register)) else Ok(Request(Register, name, args))
    else if name == "LOGIN" then
      if |args| != 1 then Error(UsageOf(Login)) else Ok(Request(Login, name, args))
    else if name == "SAVE" then
      if |args| != 4 then Error(UsageOf(SaveCharacter))
      else if !IsUnsignedNumber(args[2]) || !IsUnsignedNumber(args[3]) then Error(NotNumeric(SaveCharacter))
      else Ok(Request(SaveCharacter, name, args))
    else if name == "LOAD" then
      if |args| != 1 then Error(UsageOf(LoadCharacters)) else Ok(Request(LoadCharacters, name, args))
    else if name == "ENTER" then
      if |args| != 4 then Error(UsageOf(EnterWorld))
      else if !IsSignedNumber(args[2]) || !IsSignedNumber(args[3]) then Error(NotNumeric(EnterWorld))
      else Ok(Request(EnterWorld, name, args))
    else if name == "MOVE" then
      if |args| != 2 then Error(UsageOf(MoveTo))
      else if !IsSignedNumber(args[0]) || !IsSignedNumber(args[1]) then Error(NotNumeric(MoveTo))
      else Ok(Request(MoveTo, name, args))
    else if name == "ATTACK" then
      if |args| != 2 then Error(UsageOf(AttackTarget)) else Ok(Request(AttackTarget, name, args))
    else if name == "SAVE_ITEM" then
      if |args| != 4 then Error(UsageOf(SaveInventoryItem))
      else if !IsUnsignedNumber(args[1]) || !IsUnsignedNumber(args[2]) || !IsUnsignedNumber(args[3]) then
        Error(NotNumeric(SaveInventoryItem))
      else Ok(Request(SaveInventoryItem, name, args))
    else if name == "LOAD_INVENTORY" then
      if |args| != 1 then Error(UsageOf(LoadInventory)) else Ok(Request(LoadInventory, name, args))
    else if name == "QUIT" then
      if args != [] then Error(UsageOf(Quit)) else Ok(Request(Quit, name, []))
    else Error(UnknownCommand(command))
  }

  function StripReturn(line: string): string {
    if line != "" && line[|line| - 1] == '\r' then line[..|line| - 1] else line
  }

  function Parse(line: string): ParseResult {
    var words := Words(StripReturn(line));
    if words == [] then Error(EmptyCommand) else Dispatch(words[0], words[1..])
  }

  // ---------- The protocol as a table ----------

  function NameOf(c: Command): string {
    match c
    case Register => "REGISTER"
    case Login => "LOGIN"
    case SaveCharacter => "SAVE"
    case LoadCharacters => "LOAD"
    case EnterWorld => "ENTER"
    case MoveTo => "MOVE"
    case AttackTarget => "ATTACK"
    case SaveInventoryItem => "SAVE_ITEM"
    case LoadInventory => "LOAD_INVENTORY"
    case Quit => "QUIT"
  }

  function Arity(c: Command): nat {
    match c
    case Quit => 0
    case Login => 1
    case LoadCharacters => 1
    case LoadInventory => 1
    case Register => 2
    case MoveTo => 2
    case AttackTarget => 2
    case _ => 4
  }

  function UnsignedArgs(c: Command): set<nat> {
    match c
    case SaveCharacter => {2, 3}
    case SaveInventoryItem => {1, 2, 3}
    case _ => {}
  }

  function SignedArgs(c: Command): set<nat> {
    match c
    case EnterWorld => {2, 3}
    case MoveTo => {0, 1}
    case _ => {}
  }

  ghost predicate NumbersOk(c: Command, args: seq<string>) {
    && (forall i :: i in UnsignedArgs(c) ==> i < |args| && IsUnsignedNumber(args[i]))
    && (forall i :: i in SignedArgs(c) ==> i < |args| && IsSignedNumber(args[i]))
  }

  // A request a client may make: the command's own name, words for arguments, as many as the
  // command takes, numbers where it takes numbers.
  ghost predicate ValidRequest(r: Request) {
    && r.name == NameOf(r.command)
    && |r.args| == Arity(r.command)
    && (forall i :: 0 <= i < |r.args| ==> IsWord(r.args[i]))
    && NumbersOk(r.command, r.args)
  }

  function Print(r: Request): string {
    Join([r.name] + r.args)
  }

  /** A word spells a name in capitals, small letters or any mixture of both. */
  predicate SameLetters(word: string, name: string) {
    |word| == |name| &&
    forall i :: 0 <= i < |word| ==> word[i] == name[i] || ('A' <= name[i] <= 'Z' && word[i] == name[i] - 'A' + 'a')
  }

  lemma UpperIgnoresCase(word: string, c: Command)
    ensures Upper(word) == NameOf(c) <==> SameLetters(word, NameOf(c))
  {
    var u, name := Upper(word), NameOf(c);
    NoSmallLetters(c);
    if u == name {
      forall i | 0 <= i < |word|
        ensures word[i] == name[i] || ('A' <= name[i] <= 'Z' && word[i] == name[i] - 'A' + 'a')
      {
        assert u[i] == name[i];
      }
    }
    if SameLetters(word, name) {
      forall i | 0 <= i < |word| ensures u[i] == name[i] {
      }
    }
  }

  lemma NoSmallLetters(c: Command)
    ensures forall i :: 0 <= i < |NameOf(c)| ==> !('a' <= NameOf(c)[i] <= 'z')
  {
  }

  lemma NameIsWord(c: Command)
    ensures IsWord(NameOf(c))
  {
    NamesAreLetters(c);
  }

  /** The chain of tests decides as the table says: which command, how many arguments, which numbers. */
  lemma DispatchFollowsTable(command: string, args: seq<string>, c: Command)
    requires SameLetters(command, NameOf(c))
    ensures Dispatch(command, args) ==
            if |args| != Arity(c) then Error(UsageOf(c))
            else if !NumbersOk(c, args) then Error(NotNumeric(c))
            else Ok(Request(c, NameOf(c), args))
  {
    UpperIgnoresCase(command, c);
    match c
    case SaveCharacter => if |args| == 4 { SaveNumbers(args); }
    case SaveInventoryItem => if |args| == 4 { ItemNumbers(args); }
    case EnterWorld => if |args| == 4 { EnterNumbers(args); }
    case MoveTo => if |args| == 2 { MoveNumbers(args); }
    case _ =>
  }

  lemma SaveNumbers(args: seq<string>)
    requires |args| == 4
    ensures NumbersOk(SaveCharacter, args) <==> IsUnsignedNumber(args[2]) && IsUnsignedNumber(args[3])
  {
    assert 2 in UnsignedArgs(SaveCharacter) && 3 in UnsignedArgs(SaveCharacter);
  }

  lemma ItemNumbers(args: seq<string>)
    requires |args| == 4
    ensures NumbersOk(SaveInventoryItem, args)
            <==> IsUnsignedNumber(args[1]) && IsUnsignedNumber(args[2]) && IsUnsignedNumber(args[3])
  {
    assert 1 in UnsignedArgs(SaveInventoryItem) && 2 in UnsignedArgs(SaveInventoryItem) &&
               3 in UnsignedArgs(SaveInventoryItem);
  }

  lemma EnterNumbers(args: seq<string>)
    requires |args| == 4
    ensures NumbersOk(EnterWorld, args) <==> IsSignedNumber(args[2]) && IsSignedNumber(args[3])
  {
    assert 2 in SignedArgs(EnterWorld) && 3 in SignedArgs(EnterWorld);
  }

  lemma MoveNumbers(args: seq<string>)
    requires |args| == 2
    ensures NumbersOk(MoveTo, args) <==> IsSignedNumber(args[0]) && IsSignedNumber(args[1])
  {
    assert 0 in SignedArgs(MoveTo) && 1 in SignedArgs(MoveTo);
  }

  lemma DispatchUnknown(command: string, args: seq<string>)
    requires forall c :: !SameLetters(command, NameOf(c))
    ensures Dispatch(command, args) == Error(UnknownCommand(command))
  {
    var name := Upper(command);
    forall c ensures name != NameOf(c) {
      UpperIgnoresCase(command, c);
    }
    assert name != NameOf(Register) && name != NameOf(Login) && name != NameOf(SaveCharacter);
    assert name != NameOf(LoadCharacters) && name != NameOf(EnterWorld) && name != NameOf(MoveTo);
    assert name != NameOf(AttackTarget) && name != NameOf(SaveInventoryItem) && name != NameOf(LoadInventory);
    assert name != NameOf(Quit);
  }

  // The words of a line spell a request, up to the case of the command.
  ghost predicate Spells(line: string, r: Request) {
    var words := Words(StripReturn(line));
    words != [] && SameLetters(words[0], r.name) && words[1..] == r.args
  }

  /** A line is accepted as a request exactly when the request is valid and the line spells it. */
  lemma ParseAccepts(line: string, r: Request)
    ensures Parse(line) == Ok(r) <==> ValidRequest(r) && Spells(line, r)
  {
    var words := Words(StripReturn(line));
    WordsAreWords(StripReturn(line));
    if words != [] {
      var command, args := words[0], words[1..];
      assert forall i :: 0 <= i < |args| ==> args[i] == words[i + 1];
      if c :| SameLetters(command, NameOf(c)) {
        DispatchFollowsTable(command, args, c);
        if ValidRequest(r) && Spells(line, r) {
          DispatchFollowsTable(command, args, r.command);
        }
      } else {
        DispatchUnknown(command, args);
      }
    }
  }

  /** Every error says what is wrong with the line. */
  lemma ParseRejects(line: string)
    requires Parse(line).Error?
    ensures var words := Words(StripReturn(line));
            match Parse(line).error
            case EmptyCommand => words == []
            case UnknownCommand(w) => words != [] && w == words[0] && forall c :: !SameLetters(w, NameOf(c))
            case UsageOf(c) => words != [] && SameLetters(words[0], NameOf(c)) && |words| - 1 != Arity(c)
            case NotNumeric(c) =>
              words != [] && SameLetters(words[0], NameOf(c)) && |words| - 1 == Arity(c) && !NumbersOk(c, words[1..])
  {
    var words := Words(StripReturn(line));
    if words != [] {
      if c :| SameLetters(words[0], NameOf(c)) {
        DispatchFollowsTable(words[0], words[1..], c);
      } else {
        DispatchUnknown(words[0], words[1..]);
      }
    }
  }

  /** The case of the command does not matter: a line of a request's words, the command in any mixture
      of cases, is accepted as the request, */
  lemma AnyCaseWillDo(word: string, r: Request)
    requires ValidRequest(r) && SameLetters(word, r.name)
    ensures Parse(Join([word] + r.args)) == Ok(r) && Parse(Join([word] + r.args) + "\r") == Ok(r)
  {
    SpelledIsWord(word, r.command);
    WordsOfLine([word] + r.args);
    ParseAccepts(Join([word] + r.args), r);
    ParseAccepts(Join([word] + r.args) + "\r", r);
  }

  /** and a line that begins with any other word is refused for that word. */
  lemma UnknownIsRefused(word: string, args: seq<string>)
    requires IsWord(word) && forall i :: 0 <= i < |args| ==> IsWord(args[i])
    requires forall c :: !SameLetters(word, NameOf(c))
    ensures Parse(Join([word] + args)) == Error(UnknownCommand(word))
  {
    WordsOfLine([word] + args);
    DispatchUnknown(word, args);
    FirstIsDispatched(Join([word] + args), word, args);
  }

  lemma FirstIsDispatched(line: string, word: string, args: seq<string>)
    requires Words(StripReturn(line)) == [word] + args
    ensures Parse(line) == Dispatch(word, args)
  {
    assert ([word] + args)[1..] == args;
  }

  lemma SpelledIsWord(word: string, c: Command)
    requires SameLetters(word, NameOf(c))
    ensures IsWord(word)
  {
    NamesAreLetters(c);
  }

  lemma NamesAreLetters(c: Command)
    ensures NameOf(c) != "" && forall i :: 0 <= i < |NameOf(c)| ==> 'A' <= NameOf(c)[i] <= 'Z' || NameOf(c)[i] == '_'
  {
  }

  // The words of a line of words, with or without a carriage return at the end.
  lemma WordsOfLine(words: seq<string>)
    requires words != [] && forall i :: 0 <= i < |words| ==> IsWord(words[i])
    ensures Words(StripReturn(Join(words))) == words && Words(StripReturn(Join(words) + "\r")) == words
  {
    WordsOfJoin(words);
    JoinEndsInWord(words);
    NothingToStrip(Join(words));
  }

  lemma NothingToStrip(line: string)
    requires line != "" && line[|line| - 1] != '\r'
    ensures StripReturn(line) == line && StripReturn(line + "\r") == line
  {
  }

  /** Printing a valid request and parsing the line gives the request back, with or without a
      carriage return at the end. */
  lemma ParsePrint(r: Request)
    requires ValidRequest(r)
    ensures Parse(Print(r)) == Ok(r) && Parse(Print(r) + "\r") == Ok(r)
  {
    AnyCaseWillDo(r.name, r);
  }

  lemma {:induction false} JoinEndsInWord(words: seq<string>)
    requires words != [] && forall i :: 0 <= i < |words| ==> IsWord(words[i])
    ensures Join(words) != "" && !IsSpace(Join(words)[|Join(words)| - 1])
  {
    assert IsWord(words[0]);
    if |words| > 1 {
      JoinEndsInWord(words[1..]);
    }
  }

  /** Re-printing whatever was accepted and parsing it again changes nothing. */
  lemma ParsePrintParse(line: string)
    requires Parse(line).Ok?
    ensures Parse(Print(Parse(line).request)) == Parse(line)
  {
    var r := Parse(line).request;
    ParseAccepts(line, r);
    ParsePrint(r);
  }

  /** A carriage return at the end of any line, accepted or not, changes nothing. */
  lemma CarriageReturn(line: string)
    ensures Parse(line + "\r") == Parse(line)
  {
    assert StripReturn(line + "\r") == line;
    if line != "" && line[|line| - 1] == '\r' {
      BlankAtEnd(line[..|line| - 1], '\r', line);
    }
  }

  lemma BlankAtEnd(s: string, c: char, line: string)
    requires c in " \t\n\U{000B}\U{000C}\r" && line == s + [c]
    ensures Words(line) == Words(s)
  {
    BlankSeparates(s, c, "");
    NoWords(s, c, line);
  }

  lemma NoWords(s: string, c: char, line: string)
    requires line == s + [c]
    ensures s + [c] + "" == line && Words("") == []
  {
  }

  // ---------- The parser ----------

  // One `input >> word`: the word read, empty at the end of the input, and where reading stopped.
  method ReadWord(s: string, start: nat) returns (word: string, next: nat)
    requires start <= |s|
    ensures start <= next <= |s|
    ensures Words(s[start..]) == Begun(word, Words(s[next..]))
    ensures word != "" ==> start < next
  {
    var begin := SkipBlanks(s, start);
    next := begin;
    while next < |s| && !IsSpace(s[next])
      invariant begin <= next <= |s|
      invariant forall i :: begin <= i < next ==> !IsSpace(s[i])
    {
      next := next + 1;
    }
    word := s[begin..next];
    Slices(s, begin, next);
    WordLengthUnique(s[begin..], next - begin);
  }

  method SkipBlanks(s: string, start: nat) returns (begin: nat)
    requires start <= |s|
    ensures start <= begin <= |s| && s[begin..] == SkipSpaces(s[start..])
  {
    begin := start;
    while begin < |s| && IsSpace(s[begin])
      invariant start <= begin <= |s|
      invariant SkipSpaces(s[begin..]) == SkipSpaces(s[start..])
    {
      SkipOne(s, begin);
      begin := begin + 1;
    }
  }

  lemma SkipOne(s: string, begin: nat)
    requires begin < |s| && IsSpace(s[begin])
    ensures SkipSpaces(s[begin..]) == SkipSpaces(s[begin + 1..])
  {
    assert s[begin..][1..] == s[begin + 1..];
  }

  lemma Slices(s: string, begin: nat, next: nat)
    requires begin <= next <= |s|
    ensures s[begin..][..next - begin] == s[begin..next] && s[begin..][next - begin..] == s[next..]
  {
  }

  // The loop over the remaining words of the line.
  method ReadArgs(line: string, start: nat) returns (args: seq<string>)
    requires start <= |line|
    ensures args == Words(line[start..])
  {
    args := [];
    ghost var words := Words(line[start..]);
    var token, pos := ReadWord(line, start);
    ghost var unread := Words(line[pos..]);
    while token != ""
      invariant start <= pos <= |line|
      invariant unread == Words(line[pos..])
      invariant words == args + Begun(token, unread)
      decreases |line| - pos, |token|
    {
      assert args + Begun(token, unread) == (args + [token]) + unread;
      args := args + [token];
      token, pos := ReadWord(line, pos);
      assert unread == Begun(token, Words(line[pos..]));
      unread := Words(line[pos..]);
    }
  }

  // The words not yet stored, when `token` was just read.
  function Begun(token: string, unread: seq<string>): seq<string> {
    if token == "" then [] else [token] + unread
  }

  method ParseLine(original: string) returns (r: ParseResult)
    ensures r == Parse(original)
  {
    var line := original;
    if line != "" && line[|line| - 1] == '\r' {
      line := line[..|line| - 1];
    }
    assert line[0..] == line;
    var command, pos := ReadWord(line, 0);
    if command == "" {
      return Error(EmptyCommand);
    }
    var args := ReadArgs(line, pos);
    assert Words(line) == [command] + args;
    r := Dispatch(command, args);
  }
}

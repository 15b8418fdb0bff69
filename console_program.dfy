/**
 * The analyzer engine's console host: the command line the GUI thread reads
 * and the replies it queues, the program State shown by the `state` command,
 * the restart timer that starts a stopped engine under a restart counter, the
 * message timer that aggregates the engine's messages and forwards queued
 * output lines to the status snapshot, and the thread that copies the
 * analyzer infos into the snapshot.  Reading and writing the console, the log
 * files, the timers' periods and the event hub receiver are not modelled.
 */
module ConsoleProgram {
  import opened Common
  import opened Assoc
  import Text
  import EngineSpec
  import AnalyzerEngine
  import MessageAggregator
  import ConsoleStatusSnapshot
  import QuickAnalyzerProgram
  import AnalyzeRule

  /** Environment.NewLine on the Windows hosts. */
  const NewLine: string := "\r\n"
  const CommandSent: string := "Command sent to engine. See log for info."
  const MissingName: string := "missing analyzer name"
  /** The TryDequeue attempts on the engine's messages per tick of the message timer. */
  const MessageDrainLimit: nat := 50
  /** The output lines forwarded to the snapshot per tick. */
  const ForwardLimit: nat := 140
  /** Enum.TryParse refuses a number that does not fit the enum's underlying int. */
  const Int32Limit: int := 0x8000_0000

  // ---------------------------------------------------------------------------
  // Commands

  /** The Commands enum, in declaration order (values 0 to 6). */
  datatype Command = Help | ReloadRulesForAnal | Exit | StateCommand | ShowLoadedAnal | ShowRulesForAnal | Restart

  const AllCommands: seq<Command> := [Help, ReloadRulesForAnal, Exit, StateCommand, ShowLoadedAnal, ShowRulesForAnal, Restart]

  /** The member names, as ToString gives them. */
  function Name(c: Command): string
  {
    match c
    case Help => "help"
    case ReloadRulesForAnal => "reloadrulesforanal"
    case Exit => "exit"
    case StateCommand => "state"
    case ShowLoadedAnal => "showloadedanal"
    case ShowRulesForAnal => "showrulesforanal"
    case Restart => "restart"
  }

  function Names(cs: seq<Command>): (r: seq<string>)
    ensures |r| == |cs| && forall i :: 0 <= i < |cs| ==> r[i] == Name(cs[i])
  {
    if |cs| == 0 then [] else Names(cs[..|cs| - 1]) + [Name(cs[|cs| - 1])]
  }

  /** What Enum.TryParse yields: a declared command, or an int value that names none. */
  datatype Parsed = Known(command: Command) | Undefined(value: int)

  /** Enum.ToString: the member name, or the number for a value without one. */
  function ParsedName(p: Parsed): string
  {
    match p
    case Known(c) => Name(c)
    case Undefined(n) => IntToString(n)
  }

  /** The enum's underlying value of a command. */
  function Code(c: Command): (n: nat)
    ensures n < |AllCommands| && AllCommands[n] == c
  {
    match c
    case Help => 0
    case ReloadRulesForAnal => 1
    case Exit => 2
    case StateCommand => 3
    case ShowLoadedAnal => 4
    case ShowRulesForAnal => 5
    case Restart => 6
  }

  /** Enum.ToObject: the command declared with value `n`, or an undefined one. */
  function ValueOf(n: int): (p: Parsed)
    ensures p.Known? <==> 0 <= n < |AllCommands|
    ensures p.Known? ==> Code(p.command) == n
    ensures p.Undefined? ==> p.value == n
  {
    if 0 <= n < |AllCommands| then Known(AllCommands[n]) else Undefined(n)
  }

  /** Case folding of the ASCII letters. */
  function LowerChar(c: char): char
  {
    if 'A' <= c <= 'Z' then (c as int + 32) as char else c
  }

  function Lowered(s: string): (r: string)
    ensures |r| == |s| && forall i :: 0 <= i < |s| ==> r[i] == LowerChar(s[i])
  {
    if |s| == 0 then [] else Lowered(s[..|s| - 1]) + [LowerChar(s[|s| - 1])]
  }

  predicate AllDigits(s: string)
  {
    forall i :: 0 <= i < |s| ==> IsDigit(s[i])
  }

  /** The value of a decimal numeral. */
  function DigitsValue(s: string): nat
    requires AllDigits(s)
  {
    if |s| == 0 then 0 else DigitsValue(s[..|s| - 1]) * 10 + (s[|s| - 1] as int - '0' as int)
  }

  predicate AllWhiteSpace(s: string)
  {
    forall i :: 0 <= i < |s| ==> IsWhiteSpace(s[i])
  }

  /** String.TrimStart(): the leading white space dropped. */
  function TrimStart(s: string): (r: string)
    ensures |r| <= |s|
    ensures |r| > 0 ==> !IsWhiteSpace(r[0])
  {
    if |s| > 0 && IsWhiteSpace(s[0]) then TrimStart(s[1..]) else s
  }

  /** String.TrimEnd(): the trailing white space dropped. */
  function TrimEnd(s: string): (r: string)
    ensures |r| <= |s|
    ensures |r| > 0 ==> !IsWhiteSpace(r[|r| - 1]) && r[0] == s[0]
  {
    if |s| > 0 && IsWhiteSpace(s[|s| - 1]) then TrimEnd(s[..|s| - 1]) else s
  }

  /** TrimStart drops leading white space and nothing else. */
  lemma {:induction false} TrimStartSpec(s: string)
    ensures TrimStart(s) == s[|s| - |TrimStart(s)|..] && AllWhiteSpace(s[..|s| - |TrimStart(s)|])
  {
    if |s| > 0 && IsWhiteSpace(s[0]) {
      TrimStartSpec(s[1..]);
      var k := |s| - |TrimStart(s)|;
      assert s[1..][k - 1..] == s[k..];
      assert forall i :: 0 <= i < k ==> s[..k][i] == s[i];
      assert forall i :: 1 <= i < k ==> s[1..][..k - 1][i - 1] == s[i];
    }
  }

  /** TrimEnd drops trailing white space and nothing else. */
  lemma {:induction false} TrimEndSpec(s: string)
    ensures TrimEnd(s) == s[..|TrimEnd(s)|] && AllWhiteSpace(s[|TrimEnd(s)|..])
  {
    if |s| > 0 && IsWhiteSpace(s[|s| - 1]) {
      var p := s[..|s| - 1];
      TrimEndSpec(p);
      var k := |TrimEnd(s)|;
      assert p[..k] == s[..k];
      assert forall i :: k <= i < |s| - 1 ==> p[k..][i - k] == s[i];
      assert forall i :: k <= i < |s| ==> s[k..][i - k] == s[i];
    }
  }

  /** String.Trim(): white space dropped from both ends. */
  function Trim(s: string): (r: string)
    ensures |r| <= |s|
    ensures |r| > 0 ==> !IsWhiteSpace(r[0]) && !IsWhiteSpace(r[|r| - 1])
  {
    TrimEnd(TrimStart(s))
  }

  /** A first character that sends Enum.TryParse down its numeric path. */
  predicate NumericStart(c: char)
  {
    IsDigit(c) || c == '+' || c == '-'
  }

  /**
   * Int32.Parse with NumberStyles.Integer in the invariant culture, on a
   * trimmed text: an optional sign, then one or more decimal digits, with a
   * value that fits an int.
   */
  function ParseInt32(t: string): (r: Option<int>)
    ensures r.Some? ==> -Int32Limit <= r.value < Int32Limit
  {
    var signed := |t| > 0 && (t[0] == '+' || t[0] == '-');
    var digits := if signed then t[1..] else t;
    if |digits| == 0 || !AllDigits(digits) then None
    else
      var d: int := DigitsValue(digits);
      var v := if signed && t[0] == '-' then -d else d;
      if -Int32Limit <= v < Int32Limit then Some(v) else None
  }

  /** Bitwise or of two enum values. */
  function BitOr(a: nat, b: nat): (r: nat)
    ensures a <= r && b <= r && r <= a + b
    ensures (a < 2 && b < 2 ==> r < 2) && (a < 4 && b < 4 ==> r < 4) && (a < 8 && b < 8 ==> r < 8)
    decreases a + b
  {
    if a == 0 then b
    else if b == 0 then a
    else (if a % 2 == 1 || b % 2 == 1 then 1 else 0) + 2 * BitOr(a / 2, b / 2)
  }

  /** The names in declaration order, as Enum.GetNames gives them. */
  const CommandNames: seq<string> := ["help", "reloadrulesforanal", "exit", "state", "showloadedanal", "showrulesforanal", "restart"]

  lemma NameAt(k: nat)
    requires k < |AllCommands|
    ensures |CommandNames| == |AllCommands| && CommandNames[k] == Name(AllCommands[k])
  {
  }

  /** The command whose name is `lower`: Enum's search of its names. */
  function NamedCommand(lower: string): Option<Command>
  {
    FindCommand(lower, 0)
  }

  /** The first command from the `k`-th in declaration order whose name is `lower`. */
  function FindCommand(lower: string, k: nat): (r: Option<Command>)
    ensures r.Some? ==> Name(r.value) == lower
    ensures r.None? ==> forall j :: k <= j < |AllCommands| ==> Name(AllCommands[j]) != lower
    decreases |AllCommands| - k
  {
    if k >= |AllCommands| then None
    else
      NameAt(k);
      if CommandNames[k] == lower then Some(AllCommands[k])
      else FindCommand(lower, k + 1)
  }

  /** What each piece of a comma-separated list names, in order. */
  function PieceCommands(pieces: seq<string>): (r: seq<Option<Command>>)
    ensures |r| == |pieces|
  {
    if |pieces| == 0 then [] else PieceCommands(pieces[..|pieces| - 1]) + [PieceCommand(pieces[|pieces| - 1])]
  }

  /** Each piece of the list is trimmed and matched on its own. */
  lemma {:induction false} PieceCommandsAt(pieces: seq<string>, i: nat)
    requires i < |pieces|
    ensures PieceCommands(pieces)[i] == PieceCommand(pieces[i])
  {
    if i < |pieces| - 1 {
      PieceCommandsAt(pieces[..|pieces| - 1], i);
    }
  }

  /**
   * The values of the named commands or'ed together; nothing as soon as one
   * piece names no command.
   */
  function OrValues(cs: seq<Option<Command>>): (r: Option<nat>)
    ensures r.Some? <==> forall i :: 0 <= i < |cs| ==> cs[i].Some?
  {
    if |cs| == 0 then Some(0)
    else
      var n := OrValues(cs[..|cs| - 1]);
      var c := cs[|cs| - 1];
      if n.Some? && c.Some? then Some(BitOr(n.value, Code(c.value))) else None
  }

  /** The command one piece of the list names, once trimmed and ignoring case. */
  function PieceCommand(piece: string): Option<Command>
  {
    NamedCommand(Lowered(Trim(piece)))
  }

  /**
   * Enum.TryParse(token, ignoreCase: true) as the .NET Framework has it: the
   * token is trimmed; empty, it fails.  When it starts with a digit or a sign
   * it must be an int numeral, and that value is taken whether or not a
   * member has it (a numeral that fails to parse falls back to the names,
   * where a first piece starting with a digit or a sign never matches).
   * Otherwise it is a comma-separated list of member names, whatever the case
   * of their letters, and the values of the names are or'ed together.
   */
  function ParseCommand(token: string): Option<Parsed>
  {
    var t := Trim(token);
    if |t| == 0 then None
    else if NumericStart(t[0]) then
      match ParseInt32(t)
      case Some(n) => Some(ValueOf(n))
      case None => None
    else
      match OrValues(PieceCommands(Text.Split(t, ',')))
      case Some(n) => Some(ValueOf(n))
      case None => None
  }

  /** Distinct commands have distinct names. */
  lemma NameInjective(c: Command, d: Command)
    ensures Name(c) == Name(d) ==> c == d
  {
    if Name(c) == Name(d) {
      assert |Name(c)| == |Name(d)| && Name(c)[0] == Name(d)[0];
    }
  }

  lemma NamedCommandSpec(lower: string, c: Command)
    ensures NamedCommand(lower) == Some(c) <==> lower == Name(c)
    ensures NamedCommand(lower).Some? ==> lower == Name(NamedCommand(lower).value)
  {
    if NamedCommand(lower).Some? {
      NameInjective(c, NamedCommand(lower).value);
    } else {
      assert Name(AllCommands[Code(c)]) != lower;
    }
  }

  /**
   * Trim keeps a middle part of the text and drops only white space around
   * it; `k` is where the kept part starts.
   */
  lemma TrimSpec(s: string) returns (k: nat)
    ensures k + |Trim(s)| <= |s| && Trim(s) == s[k..k + |Trim(s)|]
    ensures AllWhiteSpace(s[..k]) && AllWhiteSpace(s[k + |Trim(s)|..])
  {
    var u := TrimStart(s);
    TrimStartSpec(s);
    TrimEndSpec(u);
    k := |s| - |u|;
    var m := |Trim(s)|;
    assert u == s[k..];
    assert Trim(s) == u[..m];
    assert s[k..][..m] == s[k..k + m];
    assert s[k..][m..] == s[k + m..];
  }

  /** A text whose ends are not white space is its own trim. */
  lemma TrimUnpadded(s: string)
    requires |s| > 0 ==> !IsWhiteSpace(s[0]) && !IsWhiteSpace(s[|s| - 1])
    ensures Trim(s) == s
  {
  }

  /** Trimming drops exactly the white space around a text whose ends are not white space. */
  lemma TrimPadded(lead: string, s: string, trail: string)
    requires AllWhiteSpace(lead) && AllWhiteSpace(trail)
    requires |s| > 0 ==> !IsWhiteSpace(s[0]) && !IsWhiteSpace(s[|s| - 1])
    ensures |s| > 0 ==> Trim(lead + s + trail) == s
  {
    if |s| > 0 {
      TrimStartPadded(lead, s + trail);
      assert lead + s + trail == lead + (s + trail);
      TrimEndPadded(s, trail);
    }
  }

  lemma {:induction false} TrimStartPadded(lead: string, s: string)
    requires AllWhiteSpace(lead) && |s| > 0 && !IsWhiteSpace(s[0])
    ensures TrimStart(lead + s) == s
  {
    if |lead| > 0 {
      assert (lead + s)[1..] == lead[1..] + s;
      TrimStartPadded(lead[1..], s);
    }
  }

  lemma {:induction false} TrimEndPadded(s: string, trail: string)
    requires AllWhiteSpace(trail) && |s| > 0 && !IsWhiteSpace(s[|s| - 1])
    ensures TrimEnd(s + trail) == s
  {
    if |trail| > 0 {
      assert (s + trail)[..|s + trail| - 1] == s + trail[..|trail| - 1];
      TrimEndPadded(s, trail[..|trail| - 1]);
    }
  }

  /** A command name is made of lower-case letters. */
  lemma NameLetters(c: Command)
    ensures |Name(c)| > 0 && forall i :: 0 <= i < |Name(c)| ==> 'a' <= Name(c)[i] <= 'z'
  {
  }

  /** A token that spells a name in any casing is made of ASCII letters. */
  lemma SpelledLetters(token: string, c: Command)
    requires Lowered(token) == Name(c)
    ensures |token| > 0 && Letters(token)
  {
    NameLetters(c);
    forall i | 0 <= i < |token| ensures 'a' <= token[i] <= 'z' || 'A' <= token[i] <= 'Z' {
      assert LowerChar(token[i]) == Name(c)[i];
    }
  }

  predicate Letters(a: string)
  {
    forall i :: 0 <= i < |a| ==> 'a' <= a[i] <= 'z' || 'A' <= a[i] <= 'Z'
  }

  /** A word of ASCII letters has no comma, no white space and no digit or sign. */
  lemma LettersShape(a: string)
    requires |a| > 0 && Letters(a)
    ensures ',' !in a && !NumericStart(a[0]) && forall i :: 0 <= i < |a| ==> !IsWhiteSpace(a[i])
  {
  }

  /**
   * Without a comma, and not starting with a digit or a sign once trimmed, a
   * token is recognised exactly when its trimmed text spells a command's
   * name, ignoring the case of its letters; it is then that command.
   */
  lemma ParseByName(token: string, c: Command)
    requires ',' !in token
    requires |Trim(token)| > 0 ==> !NumericStart(Trim(token)[0])
    ensures ParseCommand(token) == Some(Known(c)) <==> Lowered(Trim(token)) == Name(c)
    ensures ParseCommand(token).None? <==> forall c' :: Lowered(Trim(token)) != Name(c')
  {
    var t := Trim(token);
    forall c' ensures Lowered(t) == Name(c') ==> |t| > 0 {
      NameLetters(c');
    }
    var nc := NamedCommand(Lowered(t));
    if |t| > 0 {
      NamedPiece(token);
    }
    forall c' ensures ParseCommand(token) == Some(Known(c')) <==> Lowered(t) == Name(c') {
      NamedCommandSpec(Lowered(t), c');
    }
    forall c' ensures nc.None? ==> Lowered(t) != Name(c') {
      NamedCommandSpec(Lowered(t), c');
    }
  }

  /** A non-empty token of the kind above is matched as one name. */
  lemma NamedPiece(token: string)
    requires ',' !in token
    requires |Trim(token)| > 0 && !NumericStart(Trim(token)[0])
    ensures ParseCommand(token) == match NamedCommand(Lowered(Trim(token))) case Some(d) => Some(Known(d)) case None => None
  {
    var t := Trim(token);
    assert ',' !in t by {
      var k := TrimSpec(token);
      assert forall i :: 0 <= i < |t| ==> t[i] == token[k + i];
    }
    TrimUnpadded(t);
    var nc := NamedCommand(Lowered(t));
    SinglePiece(token, t);
    OrOne(nc);
    if nc.Some? {
      CodeInjective(nc.value, nc.value);
    }
  }

  /**
   * Every command's name, in any ASCII casing and with any white space
   * around it, parses back to that command.
   */
  lemma NameRoundTrip(c: Command, token: string, lead: string, trail: string)
    requires Lowered(token) == Name(c)
    requires AllWhiteSpace(lead) && AllWhiteSpace(trail)
    ensures ParseCommand(lead + token + trail) == Some(Known(c))
  {
    PieceSpelled(token, c);
    TrimPadded(lead, token, trail);
    SinglePiece(lead + token + trail, token);
    OrOne(Some(c));
    CodeInjective(c, c);
  }

  /** A token whose trimmed text is one piece without a comma, digit or sign is matched as that piece. */
  lemma SinglePiece(s: string, t: string)
    requires Trim(s) == t && |t| > 0 && ',' !in t && !NumericStart(t[0])
    ensures ParseCommand(s) == match OrValues([PieceCommand(t)]) case Some(n) => Some(ValueOf(n)) case None => None
  {
    Text.SplitWithout(t, ',');
    assert PieceCommands([t]) == [PieceCommand(t)];
  }

  /**
   * A list of two names, in any ASCII casing, parses as their values or'ed
   * together.
   */
  lemma NamesCombine(a: string, b: string, c: Command, d: Command)
    requires Lowered(a) == Name(c) && Lowered(b) == Name(d)
    ensures ParseCommand(a + "," + b) == Some(ValueOf(BitOr(Code(c), Code(d))))
  {
    PieceSpelled(a, c);
    PieceSpelled(b, d);
    ListOfTwo(a, b);
    OrTwo(c, d);
  }

  /** A name spelled in any casing is a piece naming its command. */
  lemma PieceSpelled(a: string, c: Command)
    requires Lowered(a) == Name(c)
    ensures PieceCommand(a) == Some(c)
    ensures |a| > 0 && ',' !in a && !IsWhiteSpace(a[0]) && !NumericStart(a[0]) && !IsWhiteSpace(a[|a| - 1])
  {
    SpelledShape(a, c);
    TrimUnpadded(a);
    NamedCommandSpec(Lowered(a), c);
  }

  /** A name spelled in any casing has no comma, no white space and no digit or sign. */
  lemma SpelledShape(a: string, c: Command)
    requires Lowered(a) == Name(c)
    ensures |a| > 0 && ',' !in a && !IsWhiteSpace(a[0]) && !NumericStart(a[0]) && !IsWhiteSpace(a[|a| - 1])
  {
    SpelledLetters(a, c);
    LettersShape(a);
  }

  /** A list of two pieces is parsed piece by piece. */
  lemma ListOfTwo(a: string, b: string)
    requires |a| > 0 && |b| > 0 && ',' !in a && ',' !in b
    requires !IsWhiteSpace(a[0]) && !NumericStart(a[0]) && !IsWhiteSpace(b[|b| - 1])
    ensures ParseCommand(a + "," + b) ==
      match OrValues([PieceCommand(a), PieceCommand(b)])
      case Some(n) => Some(ValueOf(n))
      case None => None
  {
    var s := a + "," + b;
    assert s == a + [','] + b;
    TrimUnpadded(s);
    Text.SplitPair(a, ',', b);
    assert PieceCommands([a, b]) == [PieceCommand(a), PieceCommand(b)];
  }

  lemma OrOne(nc: Option<Command>)
    ensures OrValues([nc]) == if nc.Some? then Some(Code(nc.value)) else None
  {
    assert [nc][..0] == [];
  }

  lemma OrTwo(c: Command, d: Command)
    ensures OrValues([Some(c), Some(d)]) == Some(BitOr(Code(c), Code(d)))
  {
    var cs := [Some(c), Some(d)];
    assert cs[..1] == [Some(c)];
    OrOne(Some(c));
  }

  lemma CodeInjective(c: Command, d: Command)
    ensures ValueOf(Code(c)) == Known(c)
    ensures Code(c) == Code(d) ==> c == d
  {
  }

  /** A name is already in lower case. */
  lemma LowerName(c: Command)
    ensures Lowered(Name(c)) == Name(c)
  {
    NameLetters(c);
  }

  /**
   * An int numeral, as int.ToString() writes it, is read as its value: 0 to
   * 6 give the commands in declaration order, other values in the range of
   * int an undefined command, values outside it nothing.
   */
  lemma NumberRoundTrip(n: int)
    ensures ParseCommand(IntToString(n)) ==
      if -Int32Limit <= n < Int32Limit then Some(ValueOf(n)) else None
  {
    var k := if n < 0 then -n else n;
    NatToStringDigits(k);
    var s := IntToString(n);
    NumericToken(s);
    if n < 0 {
      assert s == ['-'] + NatToString(k);
      SignedValue(k, '-');
    } else {
      UnsignedValue(k);
    }
  }

  /** A numeral with a plus sign is read as its value too. */
  lemma PlusSignedNumber(n: nat)
    ensures ParseCommand("+" + NatToString(n)) == if n < Int32Limit then Some(ValueOf(n)) else None
  {
    NatToStringDigits(n);
    var s := "+" + NatToString(n);
    NumericToken(s);
    assert s == ['+'] + NatToString(n);
    SignedValue(n, '+');
  }

  /** A token that starts with a digit or a sign and has no white space at its ends takes the numeric path. */
  lemma NumericToken(t: string)
    requires |t| > 0 && NumericStart(t[0]) && !IsWhiteSpace(t[|t| - 1])
    ensures ParseCommand(t) == match ParseInt32(t) case Some(n) => Some(ValueOf(n)) case None => None
  {
    TrimUnpadded(t);
  }

  /** Int32.Parse of the digits of a natural number. */
  lemma UnsignedValue(k: nat)
    ensures ParseInt32(NatToString(k)) == if k < Int32Limit then Some(k) else None
  {
    DigitsValueOfNat(k);
    NatToStringDigits(k);
  }

  /** Int32.Parse of a sign followed by the digits of a natural number. */
  lemma SignedValue(k: nat, sign: char)
    requires sign == '+' || sign == '-'
    ensures ParseInt32([sign] + NatToString(k)) ==
      if sign == '-' then (if k <= Int32Limit then Some(-(k as int)) else None)
      else (if k < Int32Limit then Some(k) else None)
  {
    DigitsValueOfNat(k);
    NatToStringDigits(k);
    assert ([sign] + NatToString(k))[1..] == NatToString(k);
  }

  lemma {:induction false} DigitsValueOfNat(n: nat)
    ensures AllDigits(NatToString(n)) && DigitsValue(NatToString(n)) == n
  {
    NatToStringDigits(n);
    var s := NatToString(n);
    if n >= 10 {
      DigitsValueOfNat(n / 10);
      assert s[..|s| - 1] == NatToString(n / 10);
    }
  }

  /** A trailing tab is trimmed: "exit\t" is exit. */
  lemma TrailingTabTrimmed()
    ensures ParseCommand("exit\t") == Some(Known(Exit))
  {
    LowerName(Exit);
    assert "exit\t" == "" + Name(Exit) + "\t";
    NameRoundTrip(Exit, Name(Exit), "", "\t");
  }

  /** "+2" is exit, and "-1" the undefined value -1. */
  lemma SignedNumerals()
    ensures ParseCommand("+2") == Some(Known(Exit))
    ensures ParseCommand("-1") == Some(Undefined(-1))
  {
    PlusSignedNumber(2);
    assert "+2" == "+" + NatToString(2);
    NumberRoundTrip(-1);
    assert IntToString(-1) == "-1";
  }

  /** "help,exit" or's 0 and 2 into exit. */
  lemma HelpExitIsExit()
    ensures ParseCommand(Name(Help) + "," + Name(Exit)) == Some(Known(Exit))
  {
    LowerName(Help);
    LowerName(Exit);
    NamesCombine(Name(Help), Name(Exit), Help, Exit);
    assert BitOr(0, 2) == 2;
  }

  /** "state,showloadedanal" or's 3 and 4 into the undefined value 7. */
  lemma StateShowLoadedIsSeven()
    ensures ParseCommand(Name(StateCommand) + "," + Name(ShowLoadedAnal)) == Some(Undefined(7))
  {
    LowerName(StateCommand);
    LowerName(ShowLoadedAnal);
    NamesCombine(Name(StateCommand), Name(ShowLoadedAnal), StateCommand, ShowLoadedAnal);
    assert BitOr(3, 4) == 7 by {
      assert BitOr(1, 2) == 3 by { assert BitOr(0, 1) == 1; }
    }
  }

  /** A list with an empty piece is refused: "help," names nothing. */
  lemma EmptyPieceRefused()
    ensures ParseCommand(Name(Help) + ",") == None
  {
    NameLetters(Help);
    TrailingComma(Name(Help));
  }

  /** A word followed by a comma leaves an empty last piece, which names no command. */
  lemma TrailingComma(a: string)
    requires |a| > 0 && ',' !in a && !IsWhiteSpace(a[0]) && !NumericStart(a[0])
    ensures ParseCommand(a + ",") == None
  {
    var s := a + ",";
    TrimUnpadded(s);
    assert s == a + [','] + "";
    Text.SplitAfterFirst(a, ',', "");
    Text.SplitWithout("", ',');
    var pieces := Text.Split(s, ',');
    assert pieces == [a, ""];
    assert Trim("") == "" && Lowered("") == "";
    NoEmptyName();
    assert PieceCommands(pieces)[1].None?;
  }

  /** No command has the empty name. */
  lemma NoEmptyName()
    ensures NamedCommand("").None?
  {
    if NamedCommand("").Some? {
      NameLetters(NamedCommand("").value);
    }
  }

  /** "-1" is acknowledged by its number and does nothing more. */
  lemma MinusOneAcknowledged(args: seq<string>, reg: seq<(string, EngineSpec.Analyzer)>, stateText: string)
    requires |args| >= 1 && args[0] == "-1"
    ensures Reply(args, reg, stateText) == ["Command -1 recieved."] && ActionOf(args) == NoAction
  {
    SignedNumerals();
    UndefinedReply(args, reg, stateText, -1);
    MinusOneLine();
  }

  /** A value without a member is acknowledged by its number and nothing else happens. */
  lemma UndefinedReply(args: seq<string>, reg: seq<(string, EngineSpec.Analyzer)>, stateText: string, n: int)
    requires |args| >= 1 && ParseCommand(args[0]) == Some(Undefined(n))
    ensures Reply(args, reg, stateText) == ["Command " + IntToString(n) + " recieved."] && ActionOf(args) == NoAction
  {
    ReplyOf(args, reg, stateText, Undefined(n));
  }

  /** The acknowledgement line of -1. */
  lemma MinusOneLine()
    ensures "Command " + IntToString(-1) + " recieved." == "Command -1 recieved."
  {
    assert IntToString(-1) == "-" + NatToString(1);
  }

  predicate MissingArgument(args: seq<string>)
  {
    |args| < 2 || args[1] == ""
  }

  /** The rule names folded from the left, each followed by a line break. */
  function RuleLines(rules: seq<string>): string
  {
    if |rules| == 0 then "" else RuleLines(rules[..|rules| - 1]) + rules[|rules| - 1] + NewLine
  }

  /** An analyzer's name, two tabs, its state, a tab, its queue length, a tab and its number of loaded rules. */
  function InfoLine(info: EngineSpec.AnalyzerInstanceInfo): string
  {
    NullToEmpty(info.name) + "\t\t" + NullToEmpty(info.state) + "\tin queue " + IntToString(info.eventsInQueue)
    + ".\tLoaded rules " + IntToString(info.numberOfRulesLoaded) + "."
  }

  function InfoLines(infos: seq<EngineSpec.AnalyzerInstanceInfo>): (r: seq<string>)
    ensures |r| == |infos| && forall i :: 0 <= i < |infos| ==> r[i] == InfoLine(infos[i])
  {
    seq(|infos|, i requires 0 <= i < |infos| => InfoLine(infos[i]))
  }

  /** GetCurrentAnalyzersInfo over the registry: one entry per analyzer, in registry order. */
  function AnalyzerInfos(reg: seq<(string, EngineSpec.Analyzer)>): (r: seq<EngineSpec.AnalyzerInstanceInfo>)
    ensures |r| == |reg| && forall i :: 0 <= i < |reg| ==> r[i] == EngineSpec.InfoListEntry(reg[i].0, reg[i].1)
  {
    seq(|reg|, i requires 0 <= i < |reg| => EngineSpec.InfoListEntry(reg[i].0, reg[i].1))
  }

  /** The lines HandleCommand queues after "Command ... recieved.". */
  function Body(p: Parsed, args: seq<string>, reg: seq<(string, EngineSpec.Analyzer)>, stateText: string): seq<string>
  {
    match p
    case Undefined(_) => []
    case Known(c) =>
      match c
      case Help => ["Available commands:"] + Names(AllCommands)
      case Exit => [CommandSent]
      case ReloadRulesForAnal => if MissingArgument(args) then [MissingName] else [CommandSent]
      case ShowRulesForAnal =>
        if MissingArgument(args) then [MissingName]
        else
          (match EngineSpec.GetRulesLoadedInAnalyzer(reg, Some(args[1]))
           case Ok(rules) => [RuleLines(rules)]
           case Err(_) => [])
      case StateCommand => [stateText]
      case ShowLoadedAnal => [NewLine, Text.Join(NewLine, InfoLines(AnalyzerInfos(reg)))]
      case Restart => [CommandSent]
  }

  /** What is queued for the pieces `args` of a line whose first word parses as `com`. */
  function Answer(com: Option<Parsed>, args: seq<string>, reg: seq<(string, EngineSpec.Analyzer)>, stateText: string): seq<string>
    requires |args| >= 1
  {
    match com
    case None => ["unknown command " + args[0]]
    case Some(p) => ["Command " + ParsedName(p) + " recieved."] + Body(p, args, reg, stateText)
  }

  /** Everything InputCommand queues for the pieces `args` of the line. */
  function Reply(args: seq<string>, reg: seq<(string, EngineSpec.Analyzer)>, stateText: string): seq<string>
    requires |args| >= 1
  {
    Answer(ParseCommand(args[0]), args, reg, stateText)
  }

  /** What a command does beyond its replies. */
  datatype Action = NoAction | ExitAction | ReloadAction(name: string) | RestartAction

  /** The action of a line whose first word parses as `com`. */
  function ActionFor(com: Option<Parsed>, args: seq<string>): Action
  {
    match com
    case Some(Known(Exit)) => ExitAction
    case Some(Known(Restart)) => RestartAction
    case Some(Known(ReloadRulesForAnal)) => if MissingArgument(args) then NoAction else ReloadAction(args[1])
    case _ => NoAction
  }

  function ActionOf(args: seq<string>): Action
    requires |args| >= 1
  {
    ActionFor(ParseCommand(args[0]), args)
  }

  /** The reply to a recognised first word. */
  lemma ReplyOf(args: seq<string>, reg: seq<(string, EngineSpec.Analyzer)>, stateText: string, p: Parsed)
    requires |args| >= 1 && ParseCommand(args[0]) == Some(p)
    ensures Reply(args, reg, stateText) == ["Command " + ParsedName(p) + " recieved."] + Body(p, args, reg, stateText)
  {
  }

  /**
   * An unrecognised first word is answered with one line naming it and does
   * nothing; a recognised one is first acknowledged by its name.
   */
  lemma UnknownOrAcknowledged(args: seq<string>, reg: seq<(string, EngineSpec.Analyzer)>, stateText: string)
    requires |args| >= 1
    ensures ParseCommand(args[0]).None? ==> Reply(args, reg, stateText) == ["unknown command " + args[0]] && ActionOf(args) == NoAction
    ensures ParseCommand(args[0]).Some? ==>
      |Reply(args, reg, stateText)| >= 1 && Reply(args, reg, stateText)[0] == "Command " + ParsedName(ParseCommand(args[0]).value) + " recieved."
    ensures ActionOf(args) != NoAction ==> ParseCommand(args[0]).Some? && ParseCommand(args[0]).value.Known?
  {
  }

  /** `help` lists every command once, in declaration order, after the heading. */
  lemma HelpListsEveryCommand(args: seq<string>, reg: seq<(string, EngineSpec.Analyzer)>, stateText: string, c: Command)
    requires |args| >= 1 && ParseCommand(args[0]) == Some(Known(Help))
    ensures var r := Reply(args, reg, stateText);
      && |r| == 2 + |AllCommands| && r[1] == "Available commands:" && r[2..] == Names(AllCommands)
      && Name(c) in r[2..]
      && forall i, j :: 0 <= i < j < |r[2..]| ==> r[2..][i] != r[2..][j]
  {
    ReplyOf(args, reg, stateText, Known(Help));
    HelpBody(args, reg, stateText);
    var r := Reply(args, reg, stateText);
    var tail := ["Available commands:"] + Names(AllCommands);
    assert r[1..] == tail;
    assert r[2..] == tail[1..] == Names(AllCommands);
    HelpNamed(c);
    NamesDistinct();
  }

  /** The body of `help`: the heading, then one name per command. */
  lemma HelpBody(args: seq<string>, reg: seq<(string, EngineSpec.Analyzer)>, stateText: string)
    ensures Body(Known(Help), args, reg, stateText) == ["Available commands:"] + Names(AllCommands)
  {
  }

  /** Every command's name is in the help list. */
  lemma HelpNamed(c: Command)
    ensures Name(c) in Names(AllCommands)
  {
    assert AllCommands[Code(c)] == c;
  }

  /** The help list has no repeated name. */
  lemma NamesDistinct()
    ensures forall i, j :: 0 <= i < j < |AllCommands| ==> Names(AllCommands)[i] != Names(AllCommands)[j]
  {
    forall i, j | 0 <= i < j < |AllCommands| ensures AllCommands[i] != AllCommands[j] {
      assert Code(AllCommands[i]) == i && Code(AllCommands[j]) == j by {
        CodeAt(i);
        CodeAt(j);
      }
    }
    DistinctNames(AllCommands);
  }

  /** The command at position `k` of the declaration has value `k`. */
  lemma CodeAt(k: nat)
    requires k < |AllCommands|
    ensures Code(AllCommands[k]) == k
  {
  }

  /** Distinct commands have distinct names. */
  lemma DistinctNames(cs: seq<Command>)
    requires forall i, j :: 0 <= i < j < |cs| ==> cs[i] != cs[j]
    ensures forall i, j :: 0 <= i < j < |cs| ==> Names(cs)[i] != Names(cs)[j]
  {
    forall i, j | 0 <= i < j < |cs| ensures Names(cs)[i] != Names(cs)[j] {
      NameInjective(cs[i], cs[j]);
    }
  }

  /**
   * The two commands about one analyzer need its name as a non-empty second
   * word: without it the reply is "missing analyzer name" and nothing is
   * asked of the engine; with it `reloadrulesforanal` hands that name on.
   */
  lemma AnalyzerCommandsNeedName(args: seq<string>, reg: seq<(string, EngineSpec.Analyzer)>, stateText: string)
    requires |args| >= 1
    requires ParseCommand(args[0]) == Some(Known(ReloadRulesForAnal)) || ParseCommand(args[0]) == Some(Known(ShowRulesForAnal))
    ensures MissingArgument(args) ==> |Reply(args, reg, stateText)| == 2 && Reply(args, reg, stateText)[1] == MissingName
                                      && ActionOf(args) == NoAction
    ensures !MissingArgument(args) && ParseCommand(args[0]) == Some(Known(ReloadRulesForAnal)) ==>
      Reply(args, reg, stateText)[1..] == [CommandSent] && ActionOf(args) == ReloadAction(args[1]) && args[1] != ""
  {
  }

  /**
   * `showrulesforanal` on a registered analyzer lists the names of its rules,
   * one per line; on an unknown name the list is empty.
   */
  lemma ShowRulesListsRules(args: seq<string>, reg: seq<(string, EngineSpec.Analyzer)>, stateText: string, i: nat)
    requires |args| >= 2 && args[1] != "" && ParseCommand(args[0]) == Some(Known(ShowRulesForAnal))
    requires EngineSpec.RegistryInv(reg) && i < |reg|
    ensures args[1] == reg[i].0 ==> Reply(args, reg, stateText)[1..] == [RuleLines(Keys(reg[i].1.rules))]
    ensures args[1] !in Keys(reg) ==> Reply(args, reg, stateText)[1..] == [""]
  {
    ReplyOf(args, reg, stateText, Known(ShowRulesForAnal));
    var g := EngineSpec.GetRulesLoadedInAnalyzer(reg, Some(args[1]));
    ShowRulesBody(args, reg, stateText);
    var h := ["Command " + ParsedName(Known(ShowRulesForAnal)) + " recieved."];
    assert Reply(args, reg, stateText)[1..] == (h + [RuleLines(g.value)])[1..];
    if args[1] == reg[i].0 {
      EngineSpec.InfoAgreesWithList(reg, i);
    }
  }

  /** The body of a show-rules command that names an analyzer. */
  lemma ShowRulesBody(args: seq<string>, reg: seq<(string, EngineSpec.Analyzer)>, stateText: string)
    requires |args| >= 2 && args[1] != ""
    ensures EngineSpec.GetRulesLoadedInAnalyzer(reg, Some(args[1])).Ok?
    ensures Body(Known(ShowRulesForAnal), args, reg, stateText) == [RuleLines(EngineSpec.GetRulesLoadedInAnalyzer(reg, Some(args[1])).value)]
  {
  }

  /** The lines of RuleLines, cut after each NewLine, are the rules again (for rules without a line break). */
  lemma {:induction false} RuleLinesRoundTrip(rules: seq<string>)
    requires forall i :: 0 <= i < |rules| ==> '\n' !in rules[i]
    ensures Text.Split(RuleLines(rules), '\n') == CarriageReturned(rules) + [""]
  {
    if |rules| > 0 {
      var tail := rules[1..];
      assert forall i :: 0 <= i < |tail| ==> '\n' !in tail[i] by {
        forall i | 0 <= i < |tail| ensures '\n' !in tail[i] { assert tail[i] == rules[i + 1]; }
      }
      RuleLinesRoundTrip(tail);
      SplitFirstRule(rules);
      assert CarriageReturned(rules) == [rules[0] + "\r"] + CarriageReturned(tail);
    } else {
      Text.SplitWithout("", '\n');
    }
  }

  /** Cutting RuleLines at its first line feed leaves the first rule with its carriage return. */
  lemma SplitFirstRule(rules: seq<string>)
    requires |rules| > 0 && '\n' !in rules[0]
    ensures Text.Split(RuleLines(rules), '\n') == [rules[0] + "\r"] + Text.Split(RuleLines(rules[1..]), '\n')
  {
    RuleLinesFront(rules);
    var a := rules[0] + "\r";
    assert '\n' !in a;
    CutNewLine(rules[0], RuleLines(rules[1..]));
    Text.SplitAfterFirst(a, '\n', RuleLines(rules[1..]));
  }

  /** NewLine is a carriage return followed by the separator Split cuts at. */
  lemma CutNewLine(r: string, rest: string)
    ensures r + NewLine + rest == (r + "\r") + ['\n'] + rest
  {
    assert NewLine == "\r" + ['\n'];
    assert r + ("\r" + ['\n']) == (r + "\r") + ['\n'];
  }

  /** Each rule followed by the carriage return that precedes the line feed of NewLine. */
  function CarriageReturned(rules: seq<string>): (r: seq<string>)
    ensures |r| == |rules| && forall i :: 0 <= i < |rules| ==> r[i] == rules[i] + "\r"
  {
    if |rules| == 0 then [] else [rules[0] + "\r"] + CarriageReturned(rules[1..])
  }

  /** The left fold read from the front. */
  lemma {:induction false} RuleLinesFront(rules: seq<string>)
    requires |rules| > 0
    ensures RuleLines(rules) == rules[0] + NewLine + RuleLines(rules[1..])
  {
    if |rules| > 1 {
      var p := rules[..|rules| - 1];
      RuleLinesFront(p);
      assert p[1..] == rules[1..][..|rules[1..]| - 1];
      assert p[0] == rules[0];
    } else {
      assert rules[..0] == [] && rules[1..] == [];
    }
  }

  // ---------------------------------------------------------------------------
  // The program State

  /** AnalyzerEngineProgram.State. */
  datatype ProgramState = ProgramState(engineState: NString, startTimeUtc: int, eventHubState: NString, lastSnapshot: int)

  /** State.ToString: `Name: value` and a NewLine for each property, in declaration order; null shows as empty. */
  function StateText(s: ProgramState, dateText: int -> string): string
  {
    "EngineState: " + NullToEmpty(s.engineState) + NewLine
    + "StartTimeUtc: " + dateText(s.startTimeUtc) + NewLine
    + "EventHubState: " + NullToEmpty(s.eventHubState) + NewLine
    + "LastSnapshot: " + dateText(s.lastSnapshot) + NewLine
  }

  /** The text HandleEventProcessorInfo builds: `Key: Value` and a NewLine per entry. */
  function HubInfoText(info: seq<(string, string)>): string
  {
    if |info| == 0 then "" else HubInfoText(info[..|info| - 1]) + info[|info| - 1].0 + ": " + info[|info| - 1].1 + NewLine
  }

  /** The output lines stamped with the time of the tick that forwards them. */
  function StampedAt(now: int, lines: seq<string>): (r: seq<Stamped<string>>)
    ensures |r| == |lines| && forall i :: 0 <= i < |lines| ==> r[i] == Stamped(now, lines[i])
  {
    if |lines| == 0 then [] else StampedAt(now, lines[..|lines| - 1]) + [Stamped(now, lines[|lines| - 1])]
  }

  /** The restart alarm's text; `restarts` is the counter before the increment. */
  function RestartText(restarts: nat): string
  {
    "AnalyzerEngine main task has been restarted " + NatToString(restarts)
    + " times. Engine is down and can not recover! Resetting start counter."
  }

  function RestartAlarm(host: string, restarts: nat): AlarmMessage
  {
    AlarmMessage(High, Some(host), Some(RestartText(restarts)), None, None)
  }

  // ---------------------------------------------------------------------------
  // AnalyzerEngineProgram

  class AnalyzerEngineProgram {
    const engine: AnalyzerEngine.Engine
    const snapShotGenerator: ConsoleStatusSnapshot.StatusSnapShotGenerator
    var outputQueue: seq<string>
    var messageOutputQueue: seq<string>
    var currentState: ProgramState
    var running: bool
    /** Program.RunRestartLoop, which exit clears. */
    var runRestartLoop: bool
    /** Whether EventHubProcessor.StopReceiver has been called. */
    var receiverStopped: bool
    /** The names handed to the engine's ReloadRulesForAnalyzer, in order. */
    var reloadRequests: seq<string>
    /** ToMessageLoop.LoopIsRunning. */
    var messageLoopIsRunning: bool

    /** The constructor starts the snapshot generator; the state's start time is the construction time. */
    constructor(engine: AnalyzerEngine.Engine, snapGen: ConsoleStatusSnapshot.StatusSnapShotGenerator, nowUtc: int)
      modifies snapGen`shallRun, snapGen`threads
      ensures this.engine == engine && snapShotGenerator == snapGen && snapGen.shallRun
      ensures snapGen.threads == if old(snapGen.shallRun) then old(snapGen.threads) else old(snapGen.threads) + 1
      ensures outputQueue == [] && messageOutputQueue == [] && currentState == ProgramState(None, nowUtc, None, 0)
      ensures running && runRestartLoop && !receiverStopped && reloadRequests == [] && !messageLoopIsRunning
    {
      this.engine := engine;
      snapShotGenerator := snapGen;
      outputQueue := [];
      messageOutputQueue := [];
      currentState := ProgramState(None, nowUtc, None, 0);
      running := true;
      runRestartLoop := true;
      receiverStopped := false;
      reloadRequests := [];
      messageLoopIsRunning := false;
      new;
      snapGen.StartGenerator();
    }

    /** What carrying out the action `a` changes, and that nothing else the commands touch changes. */
    twostate predicate Acted(a: Action, now: int)
      reads this, engine, snapShotGenerator
    {
      && running == (old(running) && a != ExitAction)
      && runRestartLoop == (old(runRestartLoop) && a != ExitAction)
      && receiverStopped == (old(receiverStopped) || a == ExitAction)
      && snapShotGenerator.shallRun == (old(snapShotGenerator.shallRun) && a != ExitAction)
      && snapShotGenerator.analyzerInfo == (if a == RestartAction then [] else old(snapShotGenerator.analyzerInfo))
      && reloadRequests == old(reloadRequests) + (if a.ReloadAction? then [a.name] else [])
      && engine.Value() == (if a == ExitAction || a == RestartAction then EngineSpec.StopEngine(old(engine.Value()), now)
                            else old(engine.Value()))
    }

    /**
     * InputCommand: a null line is the NullReferenceException of
     * `command.Split` and changes nothing; any other line is handled by
     * InputLine.
     */
    method InputCommand(command: NString, now: int, dateText: int -> string) returns (error: Option<Exception>)
      requires engine.Valid()
      modifies this`outputQueue, this`running, this`runRestartLoop, this`receiverStopped, this`reloadRequests
      modifies engine, snapShotGenerator`shallRun, snapShotGenerator`analyzerInfo
      ensures engine.Valid()
      ensures command.None? ==>
        error == Some(NullReference(DefaultNullReferenceText)) && unchanged(this, engine, snapShotGenerator)
      ensures command.Some? ==>
        var args := Text.Split(command.value, ' ');
        && error.None?
        && outputQueue == old(outputQueue) + Reply(args, old(engine.analyzers), StateText(currentState, dateText))
        && Acted(ActionOf(args), now)
    {
      if command.None? {
        return Some(NullReference(DefaultNullReferenceText));
      }
      InputLine(command.value, now, dateText);
      return None;
    }

    /** The line is split at spaces and its first word parsed; an unknown word is reported, a known one handled. */
    method InputLine(line: string, now: int, dateText: int -> string)
      requires engine.Valid()
      modifies this`outputQueue, this`running, this`runRestartLoop, this`receiverStopped, this`reloadRequests
      modifies engine, snapShotGenerator`shallRun, snapShotGenerator`analyzerInfo
      ensures engine.Valid()
      ensures var args := Text.Split(line, ' ');
        && outputQueue == old(outputQueue) + Reply(args, old(engine.analyzers), StateText(currentState, dateText))
        && Acted(ActionOf(args), now)
    {
      var divided := Text.Split(line, ' ');
      var com := ParseCommand(divided[0]);
      HandleCommand(com, divided, now, dateText);
    }

    /** An unrecognised first word is answered with one line naming it. */
    method HandleUnknown(com: Option<Parsed>, args: seq<string>, now: int, dateText: int -> string)
      requires com.None? && |args| >= 1
      modifies this`outputQueue
      ensures outputQueue == old(outputQueue) + Answer(com, args, engine.analyzers, StateText(currentState, dateText))
      ensures Acted(ActionFor(com, args), now)
    {
      outputQueue := outputQueue + ["unknown command " + args[0]];
    }

    /**
     * HandleCommand: an unparsed word is reported; a parsed command is
     * acknowledged, its replies are queued and its action is carried out (the
     * restart command's task is taken to run at once).  Each command's case is
     * a method of its own below.
     */
    method HandleCommand(com: Option<Parsed>, args: seq<string>, now: int, dateText: int -> string)
      requires engine.Valid() && |args| >= 1
      modifies this`outputQueue, this`running, this`runRestartLoop, this`receiverStopped, this`reloadRequests
      modifies engine, snapShotGenerator`shallRun, snapShotGenerator`analyzerInfo
      ensures engine.Valid()
      ensures outputQueue == old(outputQueue) + Answer(com, args, old(engine.analyzers), StateText(currentState, dateText))
      ensures Acted(ActionFor(com, args), now)
    {
      match com
      case None => HandleUnknown(com, args, now, dateText);
      case Some(Undefined(_)) =>
        outputQueue := outputQueue + ["Command " + ParsedName(com.value) + " recieved."];
      case Some(Known(Help)) => HandleHelp(com, args, now, dateText);
      case Some(Known(Exit)) => HandleExit(com, args, now, dateText);
      case Some(Known(ReloadRulesForAnal)) => HandleReload(com, args, now, dateText);
      case Some(Known(ShowRulesForAnal)) => HandleShowRules(com, args, now, dateText);
      case Some(Known(StateCommand)) => HandleState(com, args, now, dateText);
      case Some(Known(ShowLoadedAnal)) => HandleShowLoaded(com, args, now, dateText);
      case Some(Known(Restart)) => HandleRestart(com, args, now, dateText);
    }

    /** `help`: the heading and every command's name. */
    method HandleHelp(com: Option<Parsed>, args: seq<string>, now: int, dateText: int -> string)
      requires com == Some(Known(Help))
      requires |args| >= 1
      modifies this`outputQueue
      ensures outputQueue == old(outputQueue) + Answer(com, args, old(engine.analyzers), StateText(currentState, dateText))
      ensures Acted(ActionFor(com, args), now)
    {
      ghost var q0 := outputQueue;
      var h := "Command " + ParsedName(com.value) + " recieved.";
      outputQueue := outputQueue + [h];
      outputQueue := outputQueue + ["Available commands:"];
      AppendNames(AllCommands);
      AppendAssoc(q0 + [h], ["Available commands:"], Names(AllCommands));
      AppendAssoc(q0, [h], ["Available commands:"] + Names(AllCommands));
    }

    /** The loop over the members of Commands: each name is queued in turn. */
    method AppendNames(cs: seq<Command>)
      modifies this`outputQueue
      ensures outputQueue == old(outputQueue) + Names(cs)
    {
      var i := 0;
      while i < |cs|
        invariant 0 <= i <= |cs| && outputQueue == old(outputQueue) + Names(cs[..i])
      {
        assert cs[..i + 1][..i] == cs[..i];
        outputQueue := outputQueue + [Name(cs[i])];
        i := i + 1;
      }
      assert cs[..i] == cs;
    }

    /** `exit`: everything is told to stop. */
    method HandleExit(com: Option<Parsed>, args: seq<string>, now: int, dateText: int -> string)
      requires com == Some(Known(Exit))
      requires engine.Valid() && |args| >= 1
      modifies this`outputQueue, this`running, this`runRestartLoop, this`receiverStopped, this`reloadRequests
      modifies engine, snapShotGenerator`shallRun, snapShotGenerator`analyzerInfo
      ensures engine.Valid()
      ensures outputQueue == old(outputQueue) + Answer(com, args, old(engine.analyzers), StateText(currentState, dateText))
      ensures Acted(ActionFor(com, args), now)
    {
      outputQueue := outputQueue + ["Command " + ParsedName(com.value) + " recieved."];
      runRestartLoop := false;
      engine.StopEngine(now);
      running := false;
      receiverStopped := true;
      snapShotGenerator.Stop();
      outputQueue := outputQueue + [CommandSent];
    }

    /** `reloadrulesforanal`: the name goes to the engine. */
    method HandleReload(com: Option<Parsed>, args: seq<string>, now: int, dateText: int -> string)
      requires com == Some(Known(ReloadRulesForAnal))
      requires |args| >= 1
      modifies this`outputQueue, this`reloadRequests
      ensures outputQueue == old(outputQueue) + Answer(com, args, old(engine.analyzers), StateText(currentState, dateText))
      ensures Acted(ActionFor(com, args), now)
    {
      outputQueue := outputQueue + ["Command " + ParsedName(com.value) + " recieved."];
      if |args| < 2 || args[1] == "" {
        outputQueue := outputQueue + [MissingName];
      } else {
        reloadRequests := reloadRequests + [args[1]];
        outputQueue := outputQueue + [CommandSent];
      }
    }

    /** `showrulesforanal`: the analyzer's rule names. */
    method HandleShowRules(com: Option<Parsed>, args: seq<string>, now: int, dateText: int -> string)
      requires com == Some(Known(ShowRulesForAnal))
      requires |args| >= 1
      modifies this`outputQueue
      ensures outputQueue == old(outputQueue) + Answer(com, args, old(engine.analyzers), StateText(currentState, dateText))
      ensures Acted(ActionFor(com, args), now)
    {
      outputQueue := outputQueue + ["Command " + ParsedName(com.value) + " recieved."];
      if |args| < 2 || args[1] == "" {
        outputQueue := outputQueue + [MissingName];
      } else {
        var rules := engine.GetRulesLoadedInAnalyzer(Some(args[1]));
        outputQueue := outputQueue + [RuleLines(rules.value)];
      }
    }

    /** `state`: the program State's text. */
    method HandleState(com: Option<Parsed>, args: seq<string>, now: int, dateText: int -> string)
      requires com == Some(Known(StateCommand))
      requires |args| >= 1
      modifies this`outputQueue
      ensures outputQueue == old(outputQueue) + Answer(com, args, old(engine.analyzers), StateText(currentState, dateText))
      ensures Acted(ActionFor(com, args), now)
    {
      outputQueue := outputQueue + ["Command " + ParsedName(com.value) + " recieved."];
      outputQueue := outputQueue + [StateText(currentState, dateText)];
    }

    /** `showloadedanal`: a line break, then one line per analyzer. */
    method HandleShowLoaded(com: Option<Parsed>, args: seq<string>, now: int, dateText: int -> string)
      requires com == Some(Known(ShowLoadedAnal))
      requires |args| >= 1
      modifies this`outputQueue
      ensures outputQueue == old(outputQueue) + Answer(com, args, old(engine.analyzers), StateText(currentState, dateText))
      ensures Acted(ActionFor(com, args), now)
    {
      ghost var reg := engine.analyzers;
      var line := LoadedLine(reg);
      // the acknowledgement, a line break and the info lines, enqueued in that order
      outputQueue := outputQueue + (["Command " + ParsedName(com.value) + " recieved."] + [NewLine, line]);
    }

    /** The engine's analyzer infos, one line each. */
    method LoadedLine(ghost reg: seq<(string, EngineSpec.Analyzer)>) returns (line: string)
      requires reg == engine.analyzers
      ensures line == Text.Join(NewLine, InfoLines(AnalyzerInfos(reg)))
    {
      var infos := engine.GetCurrentAnalyzersInfo();
      assert infos == AnalyzerInfos(reg);
      line := Text.Join(NewLine, InfoLines(infos));
    }

    /** `restart`: the snapshot's analyzer infos are cleared and the engine stopped. */
    method HandleRestart(com: Option<Parsed>, args: seq<string>, now: int, dateText: int -> string)
      requires com == Some(Known(Restart))
      requires engine.Valid() && |args| >= 1
      modifies this`outputQueue, this`running, this`runRestartLoop, this`receiverStopped, this`reloadRequests
      modifies engine, snapShotGenerator`shallRun, snapShotGenerator`analyzerInfo
      ensures engine.Valid()
      ensures outputQueue == old(outputQueue) + Answer(com, args, old(engine.analyzers), StateText(currentState, dateText))
      ensures Acted(ActionFor(com, args), now)
    {
      outputQueue := outputQueue + ["Command " + ParsedName(com.value) + " recieved."];
      snapShotGenerator.Reset();
      engine.StopEngine(now);
      outputQueue := outputQueue + [CommandSent];
    }

    /** HandleEngineStateChange. */
    method HandleEngineStateChange(state: State)
      modifies this`currentState
      ensures currentState == old(currentState).(engineState := Some("AnalyzerEngine is: " + StateName(state)))
    {
      currentState := currentState.(engineState := Some("AnalyzerEngine is: " + StateName(state)));
    }

    /** HandleEventProcessorInfo: the entries, in enumeration order, become the event hub state. */
    method HandleEventProcessorInfo(info: seq<(string, string)>)
      modifies this`currentState
      ensures currentState == old(currentState).(eventHubState := Some(HubInfoText(info)))
    {
      var newText := "";
      var i := 0;
      while i < |info|
        invariant 0 <= i <= |info| && newText == HubInfoText(info[..i])
      {
        assert info[..i + 1][..i] == info[..i];
        newText := newText + info[i].0 + ": " + info[i].1 + NewLine;
        i := i + 1;
      }
      assert info[..i] == info;
      currentState := currentState.(eventHubState := Some(newText));
    }

    /**
     * One pass of the snapshot-update thread: every registered analyzer's
     * info replaces the one of its name in the snapshot (names not in the
     * registry keep theirs), and the state records the last snapshot time.
     */
    method SnapshotUpdateStep()
      requires engine.Valid() && snapShotGenerator.Valid()
      modifies snapShotGenerator`analyzerInfo, this`currentState
      ensures snapShotGenerator.Valid()
      ensures snapShotGenerator.analyzerInfo == Registered(old(snapShotGenerator.analyzerInfo), engine.analyzers)
      ensures currentState == old(currentState).(lastSnapshot := snapShotGenerator.lastFileGeneratedTime)
    {
      var infos := engine.GetCurrentAnalyzersInfo();
      AddInfos(infos, engine.analyzers);
      currentState := currentState.(lastSnapshot := snapShotGenerator.lastFileGeneratedTime);
    }

    /** The loop over GetCurrentAnalyzersInfo's list: each info is added to the snapshot in turn. */
    method AddInfos(infos: seq<EngineSpec.AnalyzerInstanceInfo>, ghost reg: seq<(string, EngineSpec.Analyzer)>)
      requires snapShotGenerator.Valid() && |infos| == |reg|
      requires forall i :: 0 <= i < |reg| ==> infos[i] == EngineSpec.InfoListEntry(reg[i].0, reg[i].1)
      modifies snapShotGenerator`analyzerInfo
      ensures snapShotGenerator.Valid()
      ensures snapShotGenerator.analyzerInfo == Registered(old(snapShotGenerator.analyzerInfo), reg)
    {
      ghost var before := snapShotGenerator.analyzerInfo;
      var i := 0;
      while i < |infos|
        invariant 0 <= i <= |infos| && snapShotGenerator.Valid()
        invariant snapShotGenerator.analyzerInfo == Registered(before, reg[..i])
      {
        assert reg[..i + 1][..i] == reg[..i];
        var _ := snapShotGenerator.AddAnalyzerInfoToSnapShot(infos[i]);
        i := i + 1;
      }
      assert reg[..i] == reg;
    }

    /**
     * One tick of the message timer.  Unless a tick is still running, up to
     * 50 of the engine's messages (stamped with `stamps`, when they were
     * enqueued) are aggregated and one line per aggregated text is queued
     * for output; then up to 140 queued lines are forwarded to the snapshot,
     * stamped with the tick's time.
     */
    method MessageLoop(stamps: seq<int>, now: int, dateText: int -> string)
      requires |stamps| == |engine.engineMessages|
      modifies this`messageLoopIsRunning, this`messageOutputQueue, engine`engineMessages
      modifies snapShotGenerator`messageList1, snapShotGenerator`messageList2
      ensures old(messageLoopIsRunning) ==>
        && messageLoopIsRunning && messageOutputQueue == old(messageOutputQueue)
        && engine.engineMessages == old(engine.engineMessages)
        && snapShotGenerator.CurrentList() == old(snapShotGenerator.CurrentList())
        && snapShotGenerator.NotCurrentList() == old(snapShotGenerator.NotCurrentList())
      ensures !old(messageLoopIsRunning) ==>
        var k := MessageAggregator.Drained(|old(engine.engineMessages)|, MessageDrainLimit);
        var c := MessageAggregator.Replay(MessageAggregator.Additions(MessageAggregator.Timestamped(old(engine.engineMessages), stamps)[..k]));
        var out := old(messageOutputQueue) + MessageAggregator.TrackerLines(c, dateText);
        var f := MessageAggregator.Drained(|out|, ForwardLimit);
        && !messageLoopIsRunning && engine.engineMessages == old(engine.engineMessages)[k..]
        && messageOutputQueue == out[f..]
        && snapShotGenerator.CurrentList() == old(snapShotGenerator.CurrentList()) + StampedAt(now, out[..f])
        && snapShotGenerator.NotCurrentList() == old(snapShotGenerator.NotCurrentList())
    {
      if messageLoopIsRunning {
        return;
      }
      messageLoopIsRunning := true;
      ghost var msgs, queued := engine.engineMessages, messageOutputQueue;
      var lines := DrainMessages(msgs, stamps, dateText);
      messageOutputQueue := messageOutputQueue + lines;
      ForwardMessages(now, queued + lines);
      messageLoopIsRunning := false;
    }

    /** Up to 50 of the engine's messages, stamped and aggregated, as the lines to forward. */
    method DrainMessages(ghost msgs: seq<string>, stamps: seq<int>, dateText: int -> string) returns (lines: seq<string>)
      requires msgs == engine.engineMessages && |stamps| == |msgs|
      modifies engine`engineMessages
      ensures var k := MessageAggregator.Drained(|msgs|, MessageDrainLimit);
        && engine.engineMessages == msgs[k..]
        && lines == MessageAggregator.TrackerLines(MessageAggregator.Replay(MessageAggregator.Additions(MessageAggregator.Timestamped(msgs, stamps)[..k])), dateText)
    {
      var queue := MessageAggregator.Timestamped(engine.engineMessages, stamps);
      var rest, messageAggregator := MessageAggregator.Drain(queue, MessageDrainLimit);
      engine.engineMessages := engine.engineMessages[|queue| - |rest|..];
      lines := MessageAggregator.WriteTrackers(messageAggregator.collection, dateText);
    }

    /** Up to 140 lines move from the front of the output queue onto the snapshot's current list, stamped `now`. */
    method ForwardMessages(now: int, ghost out: seq<string>)
      requires out == messageOutputQueue
      modifies this`messageOutputQueue, snapShotGenerator`messageList1, snapShotGenerator`messageList2
      ensures var f := MessageAggregator.Drained(|out|, ForwardLimit);
        && messageOutputQueue == out[f..]
        && snapShotGenerator.CurrentList() == old(snapShotGenerator.CurrentList()) + StampedAt(now, out[..f])
        && snapShotGenerator.NotCurrentList() == old(snapShotGenerator.NotCurrentList())
    {
      ghost var current := snapShotGenerator.CurrentList();
      ghost var d: nat := 0;
      var i := 1;
      while i <= ForwardLimit
        invariant 1 <= i <= ForwardLimit + 1 && d <= i - 1 && d <= |out| && (d < i - 1 ==> d == |out|)
        invariant messageOutputQueue == out[d..]
        invariant snapShotGenerator.CurrentList() == current + StampedAt(now, out[..d])
        invariant snapShotGenerator.NotCurrentList() == old(snapShotGenerator.NotCurrentList())
        modifies this`messageOutputQueue, snapShotGenerator`messageList1, snapShotGenerator`messageList2
      {
        if |messageOutputQueue| > 0 {
          var message := messageOutputQueue[0];
          assert message == out[d];
          messageOutputQueue := messageOutputQueue[1..];
          snapShotGenerator.AddMessageToSnapShot(now, message);
          StampedAtStep(now, out, d);
          d := d + 1;
        }
        i := i + 1;
      }
      assert d == MessageAggregator.Drained(|out|, ForwardLimit);
    }
  }

  /** One more forwarded line. */
  lemma StampedAtStep(now: int, out: seq<string>, d: nat)
    requires d < |out|
    ensures forall current: seq<Stamped<string>> {:trigger current + StampedAt(now, out[..d + 1])} ::
      current + StampedAt(now, out[..d + 1]) == (current + StampedAt(now, out[..d])) + [Stamped(now, out[d])]
  {
    assert out[..d + 1][..d] == out[..d];
  }

  /** The snapshot's infos after AddAnalyzerInfoToSnapShot of every registered analyzer's info, in registry order. */
  function Registered(info: seq<(string, EngineSpec.AnalyzerInstanceInfo)>, reg: seq<(string, EngineSpec.Analyzer)>): seq<(string, EngineSpec.AnalyzerInstanceInfo)>
  {
    if |reg| == 0 then info
    else Put(Registered(info, reg[..|reg| - 1]), reg[|reg| - 1].0, EngineSpec.InfoListEntry(reg[|reg| - 1].0, reg[|reg| - 1].1))
  }

  /**
   * After the snapshot-update pass every registered analyzer's current info
   * is in the snapshot under its name, and a name the registry does not hold
   * keeps what it had; names stay unique.
   */
  lemma {:induction false} RegisteredSpec(info: seq<(string, EngineSpec.AnalyzerInstanceInfo)>, reg: seq<(string, EngineSpec.Analyzer)>, k: string)
    requires UniqueKeys(reg)
    ensures Lookup(Registered(info, reg), k) == match Lookup(reg, k) case Some(a) => Some(EngineSpec.InfoListEntry(k, a)) case None => Lookup(info, k)
    ensures UniqueKeys(info) ==> UniqueKeys(Registered(info, reg))
  {
    if |reg| > 0 {
      var p, last := reg[..|reg| - 1], reg[|reg| - 1];
      assert reg == p + [last];
      assert UniqueKeys(p);
      RegisteredSpec(info, p, k);
      var entry := EngineSpec.InfoListEntry(last.0, last.1);
      LookupPut(Registered(info, p), last.0, entry, k);
      assert last.0 !in Keys(p) by {
        forall j | 0 <= j < |p| ensures Keys(p)[j] != last.0 { assert p[j] == reg[j]; }
      }
      PutNew(p, last.0, last.1);
      LookupPut(p, last.0, last.1, k);
      if UniqueKeys(info) {
        UniqueAfterPut(Registered(info, p), last.0, entry);
      }
    }
  }

  // ---------------------------------------------------------------------------
  // The restart timer

  /**
   * RestartInput and RestartLoop.  The counter is the quick analyzer's: the
   * same bound of ten restarts and the same step (QuickAnalyzerProgram.RestartStep).
   */
  class RestartInput {
    const program: AnalyzerEngineProgram
    const alarmMessageManager: AnalyzerEngine.AlarmMessageManager
    var engineStartCounter: nat
    var loopIsRunning: bool

    ghost predicate Valid()
      reads this
    {
      engineStartCounter <= QuickAnalyzerProgram.MaxEngineRestarts
    }

    constructor(program: AnalyzerEngineProgram, alarmMessageManager: AnalyzerEngine.AlarmMessageManager)
      ensures Valid() && this.program == program && this.alarmMessageManager == alarmMessageManager
      ensures engineStartCounter == 0 && !loopIsRunning
    {
      this.program := program;
      this.alarmMessageManager := alarmMessageManager;
      engineStartCounter := 0;
      loopIsRunning := false;
    }

    /**
     * One tick of the restart timer.  Nothing happens while the engine is
     * shutting down or a tick is still running.  A stopped engine is started
     * from `rules`; after a successful start the counter steps and, when it
     * had reached the maximum, the restart message is queued for output and
     * raised as a High alarm.  An exception from StartEngine escapes the
     * timer callback (`error`), leaving the tick marked as running.  The
     * engine model is Running as soon as StartEngine returns, so the wait
     * for it to come up queues nothing.
     */
    method RestartLoop(rules: seq<AnalyzeRule.Rule>, guid: nat, host: string) returns (error: Option<Exception>)
      requires program.engine.Valid() && Valid()
      modifies program.engine, program`messageOutputQueue, alarmMessageManager, this`engineStartCounter, this`loopIsRunning
      ensures program.engine.Valid() && Valid()
      ensures var v0 := old(program.engine.Value());
        if v0.state == ShuttingDown || old(loopIsRunning) then
          && error.None? && program.engine.Value() == v0 && loopIsRunning == old(loopIsRunning)
          && engineStartCounter == old(engineStartCounter)
          && program.messageOutputQueue == old(program.messageOutputQueue) && alarmMessageManager.raised == old(alarmMessageManager.raised)
        else if v0.state == Running then
          && error.None? && program.engine.Value() == v0 && !loopIsRunning && engineStartCounter == old(engineStartCounter)
          && program.messageOutputQueue == old(program.messageOutputQueue) && alarmMessageManager.raised == old(alarmMessageManager.raised)
        else
          var (v, err) := EngineSpec.StartEngine(v0, rules, guid);
          var r := QuickAnalyzerProgram.RestartStep(false, old(engineStartCounter));
          && program.engine.Value() == v && error == err
          && (err.Some? ==>
                && loopIsRunning && engineStartCounter == old(engineStartCounter)
                && program.messageOutputQueue == old(program.messageOutputQueue)
                && alarmMessageManager.raised == old(alarmMessageManager.raised))
          && (err.None? ==>
                && program.engine.EngineIsRunning() && !loopIsRunning && engineStartCounter == r.counter
                && program.messageOutputQueue == old(program.messageOutputQueue) + (if r.alarm then [RestartText(old(engineStartCounter))] else [])
                && alarmMessageManager.raised == old(alarmMessageManager.raised) + (if r.alarm then [RestartAlarm(host, old(engineStartCounter))] else []))
    {
      var engine := program.engine;
      if engine.state == ShuttingDown {
        return None;
      }
      if loopIsRunning {
        return None;
      }
      loopIsRunning := true;
      if engine.state == Stopped {
        error := StartStopped(rules, guid, host);
        if error.Some? {
          return;
        }
      }
      error := None;
      loopIsRunning := false;
    }

    /** The start of a stopped engine and the restart counter's step. */
    method StartStopped(rules: seq<AnalyzeRule.Rule>, guid: nat, host: string) returns (error: Option<Exception>)
      requires program.engine.Valid() && Valid() && program.engine.state == Stopped
      modifies program.engine, program`messageOutputQueue, alarmMessageManager, this`engineStartCounter
      ensures program.engine.Valid() && Valid()
      ensures var (v, err) := EngineSpec.StartEngine(old(program.engine.Value()), rules, guid);
        var r := QuickAnalyzerProgram.RestartStep(false, old(engineStartCounter));
        && program.engine.Value() == v && error == err
        && (err.Some? ==>
              && engineStartCounter == old(engineStartCounter)
              && program.messageOutputQueue == old(program.messageOutputQueue)
              && alarmMessageManager.raised == old(alarmMessageManager.raised))
        && (err.None? ==>
              && program.engine.EngineIsRunning() && engineStartCounter == r.counter
              && program.messageOutputQueue == old(program.messageOutputQueue) + (if r.alarm then [RestartText(old(engineStartCounter))] else [])
              && alarmMessageManager.raised == old(alarmMessageManager.raised) + (if r.alarm then [RestartAlarm(host, old(engineStartCounter))] else []))
    {
      error := program.engine.StartEngine(rules, guid);
      if error.Some? {
        return;
      }
      var before := engineStartCounter;
      engineStartCounter := engineStartCounter + 1;
      if QuickAnalyzerProgram.MaxEngineRestarts <= before {
        var message := RestartText(engineStartCounter - 1);
        program.messageOutputQueue := program.messageOutputQueue + [message];
        alarmMessageManager.RaiseAlarm(AlarmMessage(High, Some(host), Some(message), None, None));
        engineStartCounter := 0;
      }
    }
  }
}

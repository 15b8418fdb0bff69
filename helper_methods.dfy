/**
 * The control centre's HelperMethods: the HTML-ish text made of an exception
 * (its own details and one level of inner exception), the stack-trace
 * formatting that breaks a trace into lines at " at " and " in ", and the
 * dump of named operation parameters, which lists enumerable values element
 * by element with a doubled indent.  GetRuleStorage only reads configuration
 * and is not modelled.
 */
module HelperMethods {
  import opened Common
  import Text

  // ---------------------------------------------------------------------------
  // Exceptions

  /** What FormatException reads of an exception: GetType().FullName, Message, TargetSite, StackTrace and InnerException. */
  datatype ExceptionInfo = ExceptionInfo(fullName: string, message: string, target: NString,
                                         stackTrace: NString, inner: Option<ExceptionInfo>)

  const AtText: string := " at "
  const AtBreak: string := "<br><br>at "
  const InText: string := " in "
  const InBreak: string := "<br>in "

  /** A null trace is the empty string; otherwise " at " and then " in " are replaced by line breaks. */
  function FormatStackTrace(stackTrace: NString): string
  {
    match stackTrace
    case None => ""
    case Some(s) => Text.Replace(Text.Replace(s, AtText, AtBreak), InText, InBreak)
  }

  /** The four lines of the exception itself. */
  function Outer(e: ExceptionInfo): string
  {
    "<br>Fullname: " + e.fullName + "<br>Message: " + e.message
    + "<br>Target: " + NullToEmpty(e.target) + "<br>StackTrace: " + FormatStackTrace(e.stackTrace)
  }

  /** The four indented lines of the inner exception. */
  function InnerLines(i: ExceptionInfo): string
  {
    "<br>     InnerException: " + i.fullName + "<br>     Message: " + i.message
    + "<br>     Target: " + NullToEmpty(i.target) + "<br>     StackTrace: " + FormatStackTrace(i.stackTrace)
  }

  /** FormatException: the StringBuilder's appends, which no loop repeats, as one concatenation. */
  function FormatException(ex: Option<ExceptionInfo>): string
  {
    match ex
    case None => "No exception."
    case Some(e) => "<<< EXCEPTION >>>" + Outer(e) + (if e.inner.Some? then InnerLines(e.inner.value) else "")
  }

  /**
   * The text is "No exception." exactly for a null exception; any exception
   * gives a text headed "<<< EXCEPTION >>>" that goes on with its own
   * details.
   */
  lemma FormatExceptionSpec(ex: Option<ExceptionInfo>)
    ensures FormatException(ex) == "No exception." <==> ex.None?
    ensures ex.Some? ==> Text.StartsWith(FormatException(ex), "<<< EXCEPTION >>>" + Outer(ex.value))
  {
    if ex.Some? {
      var r := FormatException(ex);
      assert r[0] == '<';
      assert r[..|"<<< EXCEPTION >>>" + Outer(ex.value)|] == "<<< EXCEPTION >>>" + Outer(ex.value);
    }
  }

  /** Only the first level of inner exceptions is described: what lies below it makes no difference. */
  lemma InnerDepthOne(e: ExceptionInfo, i: ExceptionInfo, deeper1: Option<ExceptionInfo>, deeper2: Option<ExceptionInfo>)
    ensures FormatException(Some(e.(inner := Some(i.(inner := deeper1)))))
         == FormatException(Some(e.(inner := Some(i.(inner := deeper2)))))
  {
  }

  /** A trace with neither " at " nor " in " in it is passed through unchanged. */
  lemma FormatStackTracePlain(s: string)
    requires forall i: nat :: !Text.OccursAt(s, AtText, i)
    requires forall i: nat :: !Text.OccursAt(s, InText, i)
    ensures FormatStackTrace(Some(s)) == s
  {
    Text.ReplaceAbsent(s, AtText, AtBreak);
    Text.ReplaceAbsent(s, InText, InBreak);
  }

  /**
   * A frame " at <method> in <location>", with a method name of three
   * characters or more and neither part holding a space, becomes
   * "<br><br>at <method><br>in <location>".
   */
  lemma FormatFrame(m: string, f: string)
    requires ' ' !in m && ' ' !in f && |m| >= 3
    ensures FormatStackTrace(Some(AtText + m + InText + f)) == AtBreak + m + InBreak + f
  {
    var h := "<br><br>at";
    assert ' ' !in h;
    assert AtBreak == h + [' '];
    FirstPass(AtText, InText, AtBreak, m, f);
    SecondPass(InText, h, InBreak, m, f);
  }

  /** A pattern of four characters, a space at each end and none between. */
  predicate Spaced(p: string)
  {
    |p| == 4 && p[0] == ' ' && p[3] == ' ' && p[1] != ' ' && p[2] != ' '
  }

  /** Replacing the frame's first pattern touches only its front. */
  lemma FirstPass(p: string, q: string, r: string, m: string, f: string)
    requires Spaced(p) && Spaced(q) && p[1] != q[1]
    requires ' ' !in m && ' ' !in f
    ensures Text.Replace(p + m + q + f, p, r) == r + m + q + f
  {
    assert p + m + q + f == p + (m + (q + f));
    Text.ReplaceFront(p, m + (q + f), r);
    Text.ReplaceSkips(m, q + f, p, r);
    LocationKept(p, q, r, f);
  }

  /** The location part holds no match of the other pattern. */
  lemma LocationKept(p: string, q: string, r: string, f: string)
    requires Spaced(p) && Spaced(q) && p[1] != q[1] && ' ' !in f
    ensures Text.Replace(q + f, p, r) == q + f
  {
    var t := q + f;
    assert t[1] == q[1];
    Text.ReplaceStep(t, p, r);
    var u := [' '] + f;
    assert t[1..] == q[1..3] + u;
    Text.ReplaceSkips(q[1..3], u, p, r);
    SpaceThenWord(p, r, f);
    assert [q[0]] + (q[1..3] + u) == q + f;
  }

  /** A space followed by a word without spaces holds no match. */
  lemma SpaceThenWord(p: string, r: string, f: string)
    requires Spaced(p) && ' ' !in f
    ensures Text.Replace([' '] + f, p, r) == [' '] + f
  {
    var u := [' '] + f;
    assert !Text.StartsWith(u, p) by { if |u| >= 4 { assert u[3] == f[2]; } }
    Text.ReplaceStep(u, p, r);
    assert u[1..] == f + [];
    Text.ReplaceSkips(f, [], p, r);
  }

  /** Replacing the second pattern then breaks the line before the location and nowhere else. */
  lemma SecondPass(q: string, h: string, r: string, m: string, f: string)
    requires Spaced(q) && ' ' !in h && ' ' !in m && ' ' !in f && |m| >= 3
    ensures Text.Replace(h + [' '] + m + q + f, q, r) == h + [' '] + m + r + f
  {
    var t := [' '] + (m + (q + f));
    assert h + [' '] + m + q + f == h + t;
    Text.ReplaceSkips(h, t, q, r);
    assert t[3] == m[2];
    Text.ReplaceStep(t, q, r);
    assert t[1..] == m + (q + f);
    Text.ReplaceSkips(m, q + f, q, r);
    Text.ReplaceFront(q, f, r);
    Text.ReplaceSkips(f, [], q, r);
    assert f + [] == f;
  }

  // ---------------------------------------------------------------------------
  // Object dumps

  /**
   * A parameter value as GetObjectDump sees it: null, a string (enumerable,
   * but reported with its value), any other enumerable with its elements,
   * or any other object with its type's FullName and its ToString text.
   */
  datatype Obj = Null | Str(text: string) | Enumerable(typeName: string, items: seq<Obj>) | Other(typeName: string, text: string)

  const DumpHeader: string := "<<< Operation Parameters >>>"
  const StringType: string := "System.String"

  /** The label of the i-th element of an enumerable: `[i]`. */
  function Label(i: nat): string
  {
    "[" + NatToString(i) + "]"
  }

  /** The line of one node, without the new-line and indent that precede it. */
  function Header(key: string, obj: Obj): string
  {
    match obj
    case Null => key + " is null."
    case Str(s) => key + " of type " + StringType + " " + " Value: " + s
    case Enumerable(t, _) => key + " of type " + t + " "
    case Other(t, s) => key + " of type " + t + " " + " Value: " + s
  }

  function Rank(obj: Obj): nat
  {
    if obj.Enumerable? then |obj.items| + 1 else 0
  }

  /** GetObjectDump(newLine, indent, objInfo): the node's line, then its elements' dumps with the indent doubled. */
  function EntryDump(newLine: string, indent: string, key: string, obj: Obj): string
    decreases obj, Rank(obj)
  {
    newLine + indent + Header(key, obj)
    + (if obj.Enumerable? then ItemsDump(newLine, indent + indent, obj, 0) else "")
  }

  /** The dumps of the elements of `parent` from index i on, labelled by their index. */
  function ItemsDump(newLine: string, indent: string, parent: Obj, i: nat): string
    requires parent.Enumerable? && i <= |parent.items|
    decreases parent, |parent.items| - i
  {
    if i == |parent.items| then ""
    else EntryDump(newLine, indent, Label(i), parent.items[i]) + ItemsDump(newLine, indent, parent, i + 1)
  }

  /** The recursive GetObjectDump: the `dump +=` loop over the elements of an enumerable. */
  method DumpEntry(newLine: string, indent: string, key: string, obj: Obj) returns (dump: string)
    ensures dump == EntryDump(newLine, indent, key, obj)
    decreases obj
  {
    dump := newLine + indent;
    dump := dump + Header(key, obj);
    if obj.Enumerable? {
      ghost var head := dump;
      var i := 0;
      while i < |obj.items|
        invariant 0 <= i <= |obj.items|
        invariant dump + ItemsDump(newLine, indent + indent, obj, i) == head + ItemsDump(newLine, indent + indent, obj, 0)
      {
        var d := DumpEntry(newLine, indent + indent, Label(i), obj.items[i]);
        ghost var rest := ItemsDump(newLine, indent + indent, obj, i + 1);
        AppendAssoc(dump, d, rest);
        dump := dump + d;
        i := i + 1;
      }
      assert ItemsDump(newLine, indent + indent, obj, i) == "";
      assert dump + "" == dump;
    } else {
      assert dump + "" == dump;
    }
  }

  // The flat view: every node of the tree is one line, in pre-order.

  /** The lines of a node and its elements, as (indent, header) pairs in pre-order. */
  function Entries(indent: string, key: string, obj: Obj): seq<(string, string)>
    decreases obj, Rank(obj)
  {
    [(indent, Header(key, obj))] + (if obj.Enumerable? then ItemEntries(indent + indent, obj, 0) else [])
  }

  function ItemEntries(indent: string, parent: Obj, i: nat): seq<(string, string)>
    requires parent.Enumerable? && i <= |parent.items|
    decreases parent, |parent.items| - i
  {
    if i == |parent.items| then []
    else Entries(indent, Label(i), parent.items[i]) + ItemEntries(indent, parent, i + 1)
  }

  /** The text of a list of lines, each preceded by the new-line string and its indent. */
  function Lines(newLine: string, entries: seq<(string, string)>): string
  {
    if |entries| == 0 then "" else newLine + entries[0].0 + entries[0].1 + Lines(newLine, entries[1..])
  }

  /** The number of nodes of a tree. */
  function Size(obj: Obj): nat
    decreases obj, Rank(obj)
  {
    1 + (if obj.Enumerable? then ItemsSize(obj, 0) else 0)
  }

  function ItemsSize(parent: Obj, i: nat): nat
    requires parent.Enumerable? && i <= |parent.items|
    decreases parent, |parent.items| - i
  {
    if i == |parent.items| then 0 else Size(parent.items[i]) + ItemsSize(parent, i + 1)
  }

  lemma {:induction false} LinesAppend(newLine: string, a: seq<(string, string)>, b: seq<(string, string)>)
    ensures Lines(newLine, a + b) == Lines(newLine, a) + Lines(newLine, b)
  {
    if |a| > 0 {
      assert (a + b)[1..] == a[1..] + b;
      LinesAppend(newLine, a[1..], b);
    } else {
      assert a + b == b;
    }
  }

  /**
   * The dump is the flat list of lines joined: one line per node, in
   * pre-order, each element one doubled indent deeper than its enumerable,
   * and there are exactly as many lines as nodes.
   */
  lemma {:induction false} EntryDumpIsFlat(newLine: string, indent: string, key: string, obj: Obj)
    ensures EntryDump(newLine, indent, key, obj) == Lines(newLine, Entries(indent, key, obj))
    ensures |Entries(indent, key, obj)| == Size(obj)
    decreases obj, Rank(obj)
  {
    var es := Entries(indent, key, obj);
    var tail := if obj.Enumerable? then ItemEntries(indent + indent, obj, 0) else [];
    assert es == [(indent, Header(key, obj))] + tail;
    if obj.Enumerable? {
      ItemsDumpIsFlat(newLine, indent + indent, obj, 0);
    }
    assert es[1..] == tail;
  }

  lemma {:induction false} ItemsDumpIsFlat(newLine: string, indent: string, parent: Obj, i: nat)
    requires parent.Enumerable? && i <= |parent.items|
    ensures ItemsDump(newLine, indent, parent, i) == Lines(newLine, ItemEntries(indent, parent, i))
    ensures |ItemEntries(indent, parent, i)| == ItemsSize(parent, i)
    decreases parent, |parent.items| - i
  {
    if i < |parent.items| {
      EntryDumpIsFlat(newLine, indent, Label(i), parent.items[i]);
      ItemsDumpIsFlat(newLine, indent, parent, i + 1);
      LinesAppend(newLine, Entries(indent, Label(i), parent.items[i]), ItemEntries(indent, parent, i + 1));
    }
  }

  /** The dump of the named parameters: nothing for a null dictionary, else the header and each entry from "<br>" and five spaces. */
  function ObjectDump(objects: Option<seq<(string, Obj)>>): string
  {
    match objects
    case None => ""
    case Some(m) => DumpHeader + EntriesDump("<br>", "     ", m)
  }

  function EntriesDump(newLine: string, indent: string, m: seq<(string, Obj)>): string
  {
    if |m| == 0 then "" else EntriesDump(newLine, indent, m[..|m| - 1]) + EntryDump(newLine, indent, m[|m| - 1].0, m[|m| - 1].1)
  }

  /** The public GetObjectDump: the `ret +=` loop over the dictionary, in its enumeration order. */
  method GetObjectDump(objects: Option<seq<(string, Obj)>>) returns (ret: string)
    ensures ret == ObjectDump(objects)
  {
    if objects.None? {
      return "";
    }
    ret := AppendEntries(DumpHeader, "<br>", "     ", objects.value);
  }

  /** The loop itself: each entry's dump is appended to `start` in turn. */
  method AppendEntries(start: string, newLine: string, indent: string, m: seq<(string, Obj)>) returns (ret: string)
    ensures ret == start + EntriesDump(newLine, indent, m)
  {
    ret := start;
    var i := 0;
    while i < |m|
      invariant 0 <= i <= |m| && ret == start + EntriesDump(newLine, indent, m[..i])
    {
      var d := DumpEntry(newLine, indent, m[i].0, m[i].1);
      EntriesDumpStep(newLine, indent, m, i);
      AppendAssoc(start, EntriesDump(newLine, indent, m[..i]), d);
      ret := ret + d;
      i := i + 1;
    }
    assert m[..i] == m;
  }

  lemma EntriesDumpStep(newLine: string, indent: string, m: seq<(string, Obj)>, i: nat)
    requires i < |m|
    ensures EntriesDump(newLine, indent, m[..i + 1]) == EntriesDump(newLine, indent, m[..i]) + EntryDump(newLine, indent, m[i].0, m[i].1)
  {
    assert m[..i + 1][..i] == m[..i];
  }

  /**
   * The dump is empty exactly for a null dictionary; otherwise it is the
   * header followed by every entry's lines in turn, and it holds one line
   * per node of every parameter's value.
   */
  lemma {:induction false} ObjectDumpSpec(objects: Option<seq<(string, Obj)>>)
    ensures ObjectDump(objects) == "" <==> objects.None?
    ensures objects.Some? ==> ObjectDump(objects) == DumpHeader + Lines("<br>", AllEntries("     ", objects.value))
  {
    if objects.Some? {
      assert ObjectDump(objects)[0] == '<';
      EntriesDumpIsFlat("<br>", "     ", objects.value);
    }
  }

  /** The lines of all the entries of the dictionary, in order. */
  function AllEntries(indent: string, m: seq<(string, Obj)>): seq<(string, string)>
  {
    if |m| == 0 then [] else AllEntries(indent, m[..|m| - 1]) + Entries(indent, m[|m| - 1].0, m[|m| - 1].1)
  }

  lemma {:induction false} EntriesDumpIsFlat(newLine: string, indent: string, m: seq<(string, Obj)>)
    ensures EntriesDump(newLine, indent, m) == Lines(newLine, AllEntries(indent, m))
  {
    if |m| > 0 {
      var k := |m| - 1;
      EntriesDumpIsFlat(newLine, indent, m[..k]);
      EntryDumpIsFlat(newLine, indent, m[k].0, m[k].1);
      LinesAppend(newLine, AllEntries(indent, m[..k]), Entries(indent, m[k].0, m[k].1));
    }
  }
}

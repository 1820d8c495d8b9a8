// The configuration-file editor of modules/utils/config.py: `set_config_value`
// rewrites the first line assigning a key, or adds an assignment at the end.
// Files are text; `readlines` cuts them after each newline and `writelines`
// puts the lines back together.
module ConfigFile {
  import opened Wrappers
  import opened Text
  import opened Responses

  /**
   * `format_value`, rendered the way the f-string writes it: a case-blind
   * "true"/"false" becomes `True`/`False`; otherwise `literal` is what
   * `ast.literal_eval(value)` renders as, or `None` when it raises, and then
   * the value is written in double quotes.
   */
  function FormatValue(value: string, literal: Option<string>): (r: string)
    ensures Lower(value) == "true" ==> r == "True"
    ensures Lower(value) == "false" ==> r == "False"
    ensures Lower(value) != "true" && Lower(value) != "false" && literal.Some? ==> r == literal.value
    ensures Lower(value) != "true" && Lower(value) != "false" && literal.None? ==> r == "\"" + value + "\""
  {
    if Lower(value) == "true" then "True"
    else if Lower(value) == "false" then "False"
    else if literal.Some? then literal.value
    else "\"" + value + "\""
  }

  /** `file.readlines()`: the text cut after each newline; a last piece without one is a line too. */
  function ReadLines(t: string): seq<string>
    decreases |t|
  {
    if |t| == 0 then []
    else
      match IndexOf(t, '\n')
      case None => [t]
      case Some(i) => [t[..i + 1]] + ReadLines(t[i + 1..])
  }

  /** `file.writelines(lines)`. */
  function WriteLines(lines: seq<string>): string
  {
    if |lines| == 0 then "" else lines[0] + WriteLines(lines[1..])
  }

  predicate NoNewline(s: string)
  {
    forall k :: 0 <= k < |s| ==> s[k] != '\n'
  }

  /** One line as `readlines` gives it: not empty, a newline only at its end, and one there unless it is the last. */
  predicate IsLine(s: string, last: bool)
  {
    |s| > 0 && NoNewline(s[..|s| - 1]) && (!last ==> s[|s| - 1] == '\n')
  }

  predicate WellFormed(lines: seq<string>)
  {
    forall j :: 0 <= j < |lines| ==> IsLine(lines[j], j == |lines| - 1)
  }

  /** Reading a text and writing its lines back gives the text. */
  lemma {:induction false} ReadLinesRoundTrip(t: string)
    ensures WriteLines(ReadLines(t)) == t
    decreases |t|
  {
    if |t| > 0 {
      match IndexOf(t, '\n')
      case None =>
      case Some(i) =>
        var first, rest := t[..i + 1], t[i + 1..];
        var ls := [first] + ReadLines(rest);
        assert ReadLines(t) == ls;
        ReadLinesRoundTrip(rest);
        assert ls[0] == first && ls[1..] == ReadLines(rest);
        assert WriteLines(ls) == first + rest;
        assert first + rest == t;
    }
  }

  /** The lines read from any text have the shape of `readlines`. */
  lemma {:induction false} ReadLinesWellFormed(t: string)
    ensures WellFormed(ReadLines(t))
    decreases |t|
  {
    if |t| > 0 {
      match IndexOf(t, '\n')
      case None =>
        assert IsLine(t, true);
      case Some(i) =>
        var rest := ReadLines(t[i + 1..]);
        ReadLinesWellFormed(t[i + 1..]);
        var ls := ReadLines(t);
        assert IsLine(t[..i + 1], false) by {
          assert t[..i + 1][..i] == t[..i];
        }
        forall j | 0 <= j < |ls|
          ensures IsLine(ls[j], j == |ls| - 1)
        {
          if j > 0 {
            assert ls[j] == rest[j - 1];
          }
        }
    }
  }

  /** A line of the shape above is read back whole from the front of any text it starts, when it is not the last. */
  lemma IndexOfLine(first: string, rest: string, last: bool)
    requires IsLine(first, last)
    ensures first[|first| - 1] == '\n' ==> IndexOf(first + rest, '\n') == Some(|first| - 1)
    ensures first[|first| - 1] != '\n' ==> IndexOf(first, '\n') == None
  {
    var t := first + rest;
    assert forall k :: 0 <= k < |first| - 1 ==> t[k] == first[..|first| - 1][k];
    assert t[|first| - 1] == first[|first| - 1];
    if first[|first| - 1] != '\n' {
      assert forall k :: 0 <= k < |first| ==> first[k] != '\n' by {
        forall k | 0 <= k < |first|
          ensures first[k] != '\n'
        {
          if k < |first| - 1 {
            assert first[k] == first[..|first| - 1][k];
          }
        }
      }
    }
  }

  /** Writing well-formed lines and reading them back gives the same lines. */
  lemma {:induction false} WriteLinesRoundTrip(lines: seq<string>)
    requires WellFormed(lines)
    ensures ReadLines(WriteLines(lines)) == lines
  {
    if |lines| > 0 {
      var first := lines[0];
      var rest := lines[1..];
      assert WellFormed(rest) by {
        forall j | 0 <= j < |rest|
          ensures IsLine(rest[j], j == |rest| - 1)
        {
          assert rest[j] == lines[j + 1];
        }
      }
      WriteLinesRoundTrip(rest);
      var t := WriteLines(lines);
      assert t == first + WriteLines(rest);
      assert IsLine(first, |lines| == 1);
      IndexOfLine(first, WriteLines(rest), |lines| == 1);
      if first[|first| - 1] == '\n' {
        var k := |first| - 1;
        assert t[..k + 1] == first;
        assert t[k + 1..] == WriteLines(rest);
      } else {
        assert rest == [];
        assert t == first;
      }
    }
  }

  lemma {:induction false} WriteLinesAppend(lines: seq<string>, x: string)
    ensures WriteLines(lines + [x]) == WriteLines(lines) + x
  {
    if |lines| > 0 {
      assert (lines + [x])[1..] == lines[1..] + [x];
      WriteLinesAppend(lines[1..], x);
    }
  }

  /** The line `set_config_value` writes: `KEY = value` and a newline. */
  function NewLine(key: string, formatted: string): (r: string)
    ensures |r| > 0 && r[|r| - 1] == '\n'
  {
    key + " = " + formatted + "\n"
  }

  /** Whether a line assigns `key`: its stripped text starts with "KEY =" or "KEY=". */
  predicate Assigns(line: string, key: string)
  {
    StartsWith(Strip(line), key + " =") || StartsWith(Strip(line), key + "=")
  }

  /** The first line at or after `from` that assigns `key`. */
  function MatchFrom(lines: seq<string>, key: string, from: nat): (r: Option<nat>)
    ensures r.Some? ==> from <= r.value < |lines| && Assigns(lines[r.value], key)
    ensures r.Some? ==> forall j :: from <= j < r.value ==> !Assigns(lines[j], key)
    ensures r.None? ==> forall j :: from <= j < |lines| ==> !Assigns(lines[j], key)
    decreases |lines| - from
  {
    if from >= |lines| then None
    else if Assigns(lines[from], key) then Some(from)
    else MatchFrom(lines, key, from + 1)
  }

  /** The first line that assigns `key`. */
  function FirstMatch(lines: seq<string>, key: string): (r: Option<nat>)
    ensures r.Some? ==> r.value < |lines| && Assigns(lines[r.value], key)
    ensures r.Some? ==> forall j :: 0 <= j < r.value ==> !Assigns(lines[j], key)
    ensures r.None? ==> forall j :: 0 <= j < |lines| ==> !Assigns(lines[j], key)
  {
    MatchFrom(lines, key, 0)
  }

  /** The lines after the update: the first assignment of `key` replaced, or a new one added at the end. */
  function SetLines(lines: seq<string>, key: string, formatted: string): (r: seq<string>)
    ensures FirstMatch(lines, key).Some? ==>
      |r| == |lines| && r[FirstMatch(lines, key).value] == NewLine(key, formatted) &&
      forall j :: 0 <= j < |lines| && j != FirstMatch(lines, key).value ==> r[j] == lines[j]
    ensures FirstMatch(lines, key).None? ==> r == lines + [NewLine(key, formatted)]
  {
    match FirstMatch(lines, key)
    case Some(i) => lines[i := NewLine(key, formatted)]
    case None => lines + [NewLine(key, formatted)]
  }

  /** The loop of `set_config_value` over `enumerate(lines)`, stopping at the first assignment. */
  method UpdateLines(lines: seq<string>, key: string, formatted: string) returns (r: seq<string>)
    ensures r == SetLines(lines, key, formatted)
  {
    r := lines;
    var keyFound := false;
    var i := 0;
    while i < |r|
      invariant 0 <= i <= |r| == |lines|
      invariant !keyFound ==> r == lines && forall j :: 0 <= j < i ==> !Assigns(lines[j], key)
      invariant keyFound ==> r == SetLines(lines, key, formatted)
      decreases |r| - i, !keyFound
    {
      var stripped := Strip(r[i]);
      if StartsWith(stripped, key + " =") || StartsWith(stripped, key + "=") {
        r := r[i := NewLine(key, formatted)];
        keyFound := true;
        break;
      }
      i := i + 1;
    }
    if !keyFound {
      r := r + [NewLine(key, formatted)];
    }
  }

  /** A key that the written line is found under again: empty, or not starting with whitespace. */
  predicate Findable(key: string)
  {
    |key| == 0 || !IsSpace(key[0])
  }

  lemma TrimEndKeepsPrefix(s: string, n: nat)
    requires n < |s| && !IsSpace(s[n])
    ensures StartsWith(TrimEnd(s), s[..n + 1])
  {
    var r := TrimEnd(s);
    TrimEndRemovesSpace(s);
    assert |r| > n;
    assert s[..n + 1] == r[..n + 1];
  }

  /** The line written for a findable key assigns that key. */
  lemma NewLineAssigns(key: string, formatted: string)
    requires Findable(key)
    ensures Assigns(NewLine(key, formatted), key)
  {
    var line := NewLine(key, formatted);
    if |key| == 0 {
      var t := line[1..];
      assert TrimStart(line) == TrimStart(t);
      assert TrimStart(t) == t;
      TrimEndKeepsPrefix(t, 0);
      assert t[..1] == key + "=";
    } else {
      assert TrimStart(line) == line;
      TrimEndKeepsPrefix(line, |key| + 1);
      assert line[..|key| + 2] == key + " =";
    }
  }

  lemma {:induction false} TrimStartAppend(s: string, c: char)
    ensures TrimStart(s + [c]) == if |TrimStart(s)| == 0 && IsSpace(c) then "" else TrimStart(s) + [c]
  {
    if |s| > 0 && IsSpace(s[0]) {
      assert (s + [c])[1..] == s[1..] + [c];
      TrimStartAppend(s[1..], c);
    } else if |s| == 0 {
      assert s + [c] == [c];
      if IsSpace(c) {
        assert ([c])[1..] == [];
      }
    }
  }

  lemma TrimEndSpace(s: string, c: char)
    requires IsSpace(c)
    ensures TrimEnd(s + [c]) == TrimEnd(s)
  {
    assert (s + [c])[..|s|] == s;
  }

  /** Ending a line with a newline does not change what it assigns. */
  lemma StripNewline(s: string)
    ensures Strip(s + "\n") == Strip(s)
  {
    TrimStartAppend(s, '\n');
    if |TrimStart(s)| > 0 {
      TrimEndSpace(TrimStart(s), '\n');
    }
  }

  /**
   * The text `set_config_value` writes, as the code does it: when no line
   * assigns the key, the new line is added after the last line whether or not
   * that one ends in a newline.
   */
  function SetConfigTextAsWritten(t: string, key: string, formatted: string): string
  {
    WriteLines(SetLines(ReadLines(t), key, formatted))
  }

  /** The lines with a newline added to the last one if it lacks one. */
  function Terminated(lines: seq<string>): (r: seq<string>)
    ensures |r| == |lines|
    ensures forall j :: 0 <= j < |lines| - 1 ==> r[j] == lines[j]
  {
    if |lines| > 0 && !EndsWith(lines[|lines| - 1], "\n") then
      lines[|lines| - 1 := lines[|lines| - 1] + "\n"]
    else lines
  }

  /** The corrected update: an added assignment starts on a line of its own. */
  function SetLinesFixed(lines: seq<string>, key: string, formatted: string): seq<string>
    requires WellFormed(lines)
  {
    match FirstMatch(lines, key)
    case Some(i) => lines[i := NewLine(key, formatted)]
    case None => Terminated(lines) + [NewLine(key, formatted)]
  }

  function SetConfigText(t: string, key: string, formatted: string): string
  {
    ReadLinesWellFormed(t);
    WriteLines(SetLinesFixed(ReadLines(t), key, formatted))
  }

  /** A line free of newlines, as `NewLine` makes for a key and value free of them. */
  predicate OneLine(s: string)
  {
    '\n' !in s
  }

  lemma NewLineShape(key: string, formatted: string)
    requires OneLine(key) && OneLine(formatted)
    ensures var l := NewLine(key, formatted); '\n' !in l[..|l| - 1]
  {
    var l := NewLine(key, formatted);
    assert l[..|l| - 1] == key + " = " + formatted;
  }

  /** A line that assigns `key` with none before it is the first match. */
  lemma FirstMatchAt(lines: seq<string>, key: string, k: nat)
    requires k < |lines| && Assigns(lines[k], key)
    requires forall j :: 0 <= j < k ==> !Assigns(lines[j], key)
    ensures FirstMatch(lines, key) == Some(k)
  {
    var m := FirstMatch(lines, key);
    if m.None? || m.value > k {
      assert false;
    }
  }

  /** Terminating the lines ends every one of them in a newline and changes none of the keys they assign. */
  lemma TerminatedLines(lines: seq<string>, key: string)
    requires WellFormed(lines)
    ensures forall j :: 0 <= j < |lines| ==> IsLine(Terminated(lines)[j], false)
    ensures forall j :: 0 <= j < |lines| ==> Assigns(Terminated(lines)[j], key) == Assigns(lines[j], key)
  {
    var n := |lines|;
    if n > 0 {
      var last := lines[n - 1];
      assert IsLine(last, true);
      if !EndsWith(last, "\n") {
        StripNewline(last);
        assert (last + "\n")[..|last|] == last;
        assert last[|last| - 1] != '\n' by {
          if last[|last| - 1] == '\n' {
            assert false;
          }
        }
        assert NoNewline(last) by {
          forall k | 0 <= k < |last|
            ensures last[k] != '\n'
          {
            if k < |last| - 1 {
              assert last[k] == last[..|last| - 1][k];
            }
          }
        }
        assert IsLine(Terminated(lines)[n - 1], false);
      } else {
        assert last[|last| - 1..] == [last[|last| - 1]];
      }
    }
  }

  /** The corrected update keeps the shape `readlines` gives. */
  lemma SetLinesFixedWellFormed(lines: seq<string>, key: string, formatted: string)
    requires WellFormed(lines) && OneLine(key) && OneLine(formatted)
    ensures WellFormed(SetLinesFixed(lines, key, formatted))
  {
    var nl := NewLine(key, formatted);
    NewLineShape(key, formatted);
    assert IsLine(nl, false) && IsLine(nl, true);
    if FirstMatch(lines, key).None? {
      TerminatedLines(lines, key);
    }
  }

  /** After the corrected update, the first line assigning a findable key is the written one. */
  lemma SetLinesFixedFirst(lines: seq<string>, key: string, formatted: string)
    requires WellFormed(lines) && Findable(key)
    ensures var r := SetLinesFixed(lines, key, formatted);
      FirstMatch(r, key).Some? && r[FirstMatch(r, key).value] == NewLine(key, formatted)
  {
    var r := SetLinesFixed(lines, key, formatted);
    NewLineAssigns(key, formatted);
    match FirstMatch(lines, key)
    case Some(i) =>
      FirstMatchAt(r, key, i);
    case None =>
      TerminatedLines(lines, key);
      assert forall j :: 0 <= j < |lines| ==> r[j] == Terminated(lines)[j];
      FirstMatchAt(r, key, |lines|);
  }

  /** With the correction, setting a key to a value twice leaves the file as setting it once. */
  lemma SetConfigTextIdempotent(t: string, key: string, formatted: string)
    requires OneLine(key) && OneLine(formatted) && Findable(key)
    ensures SetConfigText(SetConfigText(t, key, formatted), key, formatted) == SetConfigText(t, key, formatted)
  {
    ReadLinesWellFormed(t);
    var lines := ReadLines(t);
    var r := SetLinesFixed(lines, key, formatted);
    SetLinesFixedWellFormed(lines, key, formatted);
    SetLinesFixedFirst(lines, key, formatted);
    WriteLinesRoundTrip(r);
    var k := FirstMatch(r, key).value;
    assert SetLinesFixed(r, key, formatted) == r[k := NewLine(key, formatted)];
    assert r[k := NewLine(key, formatted)] == r;
  }

  /** After the corrected update, the first line of the text that assigns the key is the new assignment. */
  lemma SetConfigTextAssigns(t: string, key: string, formatted: string)
    requires OneLine(key) && OneLine(formatted) && Findable(key)
    ensures var lines := ReadLines(SetConfigText(t, key, formatted));
      FirstMatch(lines, key).Some? && lines[FirstMatch(lines, key).value] == NewLine(key, formatted)
  {
    ReadLinesWellFormed(t);
    var r := SetLinesFixed(ReadLines(t), key, formatted);
    SetLinesFixedWellFormed(ReadLines(t), key, formatted);
    SetLinesFixedFirst(ReadLines(t), key, formatted);
    WriteLinesRoundTrip(r);
  }

  /** The text's last character is the last character of its last line. */
  lemma LastLineEndsText(lines: seq<string>)
    requires |lines| > 0 && |lines[|lines| - 1]| > 0
    ensures var w := WriteLines(lines); var l := lines[|lines| - 1];
      |w| > 0 && w[|w| - 1] == l[|l| - 1]
  {
    var n := |lines|;
    assert lines == lines[..n - 1] + [lines[n - 1]];
    WriteLinesAppend(lines[..n - 1], lines[n - 1]);
  }

  /**
   * The code as written and the corrected update agree on every text that is
   * empty or ends in a newline: the assignment is glued to the last line
   * only when that line is unterminated.
   */
  lemma AsWrittenAgreesOnTerminatedText(t: string, key: string, formatted: string)
    requires |t| == 0 || t[|t| - 1] == '\n'
    ensures SetConfigTextAsWritten(t, key, formatted) == SetConfigText(t, key, formatted)
  {
    ReadLinesWellFormed(t);
    ReadLinesRoundTrip(t);
    var lines := ReadLines(t);
    if |lines| > 0 {
      var l := lines[|lines| - 1];
      assert IsLine(l, true);
      LastLineEndsText(lines);
      assert l[|l| - 1..] == "\n";
    }
    assert Terminated(lines) == lines;
  }

  lemma WriteTwoLines(a: string, b: string)
    ensures WriteLines([a, b]) == a + b
  {
    assert [b][1..] == [];
    assert WriteLines([b]) == b + WriteLines([]) == b;
    assert [a, b][1..] == [b];
  }

  /** A one-line text that does not assign "B" is read as that line and "B = 2" is added to it. */
  lemma AppendToOneLine(t: string)
    requires |t| > 0 && !Assigns(t, "B")
    ensures t[|t| - 1] != '\n' && '\n' !in t[..|t| - 1] ==> SetConfigTextAsWritten(t, "B", "2") == t + "B = 2\n"
    ensures t[|t| - 1] == '\n' && '\n' !in t[..|t| - 1] ==> SetConfigTextAsWritten(t, "B", "2") == t + "B = 2\n"
  {
    if '\n' !in t[..|t| - 1] {
      assert IsLine(t, t[|t| - 1] != '\n');
      IndexOfLine(t, "", t[|t| - 1] != '\n');
      assert t + "" == t;
      if t[|t| - 1] == '\n' {
        assert t[..|t|] == t && t[|t|..] == "";
      }
      assert ReadLines(t) == [t];
      assert FirstMatch([t], "B") == None;
      WriteTwoLines(t, NewLine("B", "2"));
    }
  }

  /** As written, a last line without a newline has "B = 2" glued onto it. */
  lemma FirstCallGlues()
    ensures SetConfigTextAsWritten("A = 1", "B", "2") == "A = 1" + "B = 2\n"
  {
    var t := "A = 1";
    assert Strip(t) == t;
    assert !Assigns(t, "B");
    assert t[..4] == "A = " && '\n' !in "A = ";
    AppendToOneLine(t);
  }

  /** The glued line does not assign "B", so the next call adds the assignment again. */
  lemma SecondCallAppends()
    ensures SetConfigTextAsWritten("A = 1" + "B = 2\n", "B", "2") == "A = 1" + "B = 2\n" + "B = 2\n"
  {
    var s2 := "A = 1B = 2";
    var t2 := s2 + "\n";
    assert t2 == "A = 1" + "B = 2\n";
    assert Strip(s2) == s2;
    StripNewline(s2);
    assert !Assigns(t2, "B");
    assert t2[..10] == s2 && '\n' !in s2;
    AppendToOneLine(t2);
  }

  /** As written, setting a key twice on a file whose last line lacks a newline writes the assignment twice. */
  lemma AppendGluesLastLine()
    ensures SetConfigTextAsWritten(SetConfigTextAsWritten("A = 1", "B", "2"), "B", "2") != SetConfigTextAsWritten("A = 1", "B", "2")
  {
    FirstCallGlues();
    SecondCallAppends();
    var once := SetConfigTextAsWritten("A = 1", "B", "2");
    assert |SetConfigTextAsWritten(once, "B", "2")| == |once| + 6;
  }

  /** As the code does on lines: setting the same key and value twice gives the lines of setting it once. */
  lemma SetLinesIdempotent(lines: seq<string>, key: string, formatted: string)
    requires Findable(key)
    ensures SetLines(SetLines(lines, key, formatted), key, formatted) == SetLines(lines, key, formatted)
  {
    NewLineAssigns(key, formatted);
    var r := SetLines(lines, key, formatted);
    var k := if FirstMatch(lines, key).Some? then FirstMatch(lines, key).value else |lines|;
    assert r[k] == NewLine(key, formatted);
    assert forall j :: 0 <= j < k ==> r[j] == lines[j] && !Assigns(r[j], key);
    assert FirstMatch(r, key) == Some(k) by {
      var m := FirstMatch(r, key);
      if m.None? {
        assert false;
      } else if m.value < k {
        assert false;
      } else if m.value > k {
        assert false;
      }
    }
    assert r[k := NewLine(key, formatted)] == r;
  }

  /** `os.path.join('CONFIG', f'{config_type}.py')`. */
  function ConfigPath(configType: string): string
  {
    "CONFIG/" + configType + ".py"
  }

  /**
   * `set_config_value` over a file system of texts by path. A missing file
   * is ignored with `fail_silently` and raises otherwise; an existing one is
   * rewritten by the corrected update `SetConfigText`, which puts a new
   * assignment on a line of its own (the code as written appends it to an
   * unterminated last line; see `SetConfigTextAsWritten`).
   */
  function SetConfigValue(files: map<string, string>, configType: string, key: string, value: string, literal: Option<string>, failSilently: bool): (r: Result<map<string, string>, Raised>)
    ensures ConfigPath(configType) !in files ==> (r.Ok? <==> failSilently)
    ensures r.Ok? ==> r.value.Keys == files.Keys
    ensures ConfigPath(configType) in files ==>
      r.Ok? && r.value[ConfigPath(configType)] == SetConfigText(files[ConfigPath(configType)], key, FormatValue(value, literal))
    ensures r.Ok? ==> forall p :: p in files && p != ConfigPath(configType) ==> r.value[p] == files[p]
  {
    var path := ConfigPath(configType);
    if path !in files then
      if failSilently then Ok(files) else Err(FileNotFound("Config file '" + path + "' does not exist."))
    else
      Ok(files[path := SetConfigText(files[path], key, FormatValue(value, literal))])
  }

  /** Calling `set_config_value` twice with the same arguments leaves the files as calling it once. */
  lemma SetConfigValueIdempotent(files: map<string, string>, configType: string, key: string, value: string, literal: Option<string>, failSilently: bool)
    requires OneLine(key) && OneLine(FormatValue(value, literal)) && Findable(key)
    requires SetConfigValue(files, configType, key, value, literal, failSilently).Ok?
    ensures var once := SetConfigValue(files, configType, key, value, literal, failSilently).value;
      SetConfigValue(once, configType, key, value, literal, failSilently) == Ok(once)
  {
    var path := ConfigPath(configType);
    if path in files {
      SetConfigTextIdempotent(files[path], key, FormatValue(value, literal));
      var once := SetConfigValue(files, configType, key, value, literal, failSilently).value;
      assert once[path := SetConfigText(once[path], key, FormatValue(value, literal))] == once;
    }
  }
}

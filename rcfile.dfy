/** `read_config`: the `~/.cdsapirc` parser, identical in cdsapi/api.py:28-36 and
    cdsapi/legacy_client.py:8-16. The file is given as the list of its lines,
    each with its line terminator, as `readlines()` returns them. */
module RcFile {
  import opened Outcomes
  import opened Text

  /** The only settings the parser keeps. */
  const KEYS: set<string> := {"url", "key", "verify"}

  /** What one line contributes: none, or a key and its value. The line is
      stripped and cut at its first ':'; only the value is stripped again. */
  function ParseLine(line: string): (entry: Option<(string, string)>)
    ensures entry.Some? ==> ':' in line && entry.value.0 in KEYS
  {
    if ':' in line then
      StripKeeps(line, ':');
      var parts := SplitFirst(Strip(line), ':');
      if parts.0 in KEYS then Some((parts.0, Strip(parts.1))) else None
    else None
  }

  /** The dictionary after storing `entries` in order, a later entry for a key
      replacing an earlier one. */
  function Fill(entries: seq<Option<(string, string)>>): map<string, string>
  {
    if entries == [] then map[]
    else
      var config := Fill(entries[..|entries| - 1]);
      match entries[|entries| - 1]
      case None => config
      case Some((k, v)) => config[k := v]
  }

  /** What each line contributes, in file order. */
  function Entries(lines: seq<string>): (entries: seq<Option<(string, string)>>)
    ensures |entries| == |lines|
  {
    if lines == [] then [] else Entries(lines[..|lines| - 1]) + [ParseLine(lines[|lines| - 1])]
  }

  lemma {:induction false} EntriesAt(lines: seq<string>, i: nat)
    requires i < |lines|
    ensures Entries(lines)[i] == ParseLine(lines[i])
  {
    if i < |lines| - 1 {
      EntriesAt(lines[..|lines| - 1], i);
    }
  }

  /** The dictionary `read_config` returns for the file `lines`. */
  function ConfigOf(lines: seq<string>): map<string, string>
  {
    Fill(Entries(lines))
  }

  lemma FillSnoc(entries: seq<Option<(string, string)>>, e: Option<(string, string)>)
    ensures Fill(entries + [e]) == if e.Some? then Fill(entries)[e.value.0 := e.value.1] else Fill(entries)
  {
    assert (entries + [e])[..|entries|] == entries;
  }

  lemma ConfigOfSnoc(lines: seq<string>, line: string)
    ensures ConfigOf(lines + [line]) ==
      var e := ParseLine(line); if e.Some? then ConfigOf(lines)[e.value.0 := e.value.1] else ConfigOf(lines)
  {
    var e := ParseLine(line);
    assert (lines + [line])[..|lines|] == lines;
    FillSnoc(Entries(lines), e);
  }

  lemma ParseCut(line: string)
    requires ':' in Strip(line)
    ensures var (k, v) := SplitFirst(Strip(line), ':');
      ParseLine(line) == if k in KEYS then Some((k, Strip(v))) else None
  {
    StripKeeps(line, ':');
  }

  /** The source's loop, filling the dictionary line by line. */
  method ReadConfig(lines: seq<string>) returns (config: map<string, string>)
    ensures config == ConfigOf(lines)
  {
    config := map[];
    for i := 0 to |lines|
      invariant config == ConfigOf(lines[..i])
    {
      var l := lines[i];
      ConfigOfSnoc(lines[..i], l);
      assert lines[..i + 1] == lines[..i] + [l];
      if ':' in l {
        StripKeeps(l, ':');
        var (k, v) := SplitFirst(Strip(l), ':');
        ParseCut(l);
        if k in KEYS {
          config := config[k := Strip(v)];
        }
      }
    }
    assert lines[..|lines|] == lines;
  }

  /** Entry `e` sets key `k`. */
  predicate Sets(e: Option<(string, string)>, k: string)
  {
    e.Some? && e.value.0 == k
  }

  /** A key is present exactly when some entry sets it, and its value is the one
      from the last such entry. */
  lemma {:induction false} LastEntryWins(entries: seq<Option<(string, string)>>, k: string)
    ensures k in Fill(entries) <==> exists i :: 0 <= i < |entries| && Sets(entries[i], k)
    ensures k in Fill(entries) ==>
      exists i :: 0 <= i < |entries| && entries[i] == Some((k, Fill(entries)[k]))
        && forall j :: i < j < |entries| ==> !Sets(entries[j], k)
  {
    if entries != [] {
      var n := |entries| - 1;
      var init := entries[..n];
      LastEntryWins(init, k);
      assert forall i :: 0 <= i < n ==> init[i] == entries[i];
      if Sets(entries[n], k) {
        assert entries[n] == Some((k, Fill(entries)[k]));
      } else if k in Fill(init) {
        var i :| 0 <= i < n && init[i] == Some((k, Fill(init)[k]))
          && forall j :: i < j < n ==> !Sets(init[j], k);
        assert entries[i] == Some((k, Fill(entries)[k]));
      }
    }
  }

  lemma {:induction false} FillKeys(entries: seq<Option<(string, string)>>)
    requires forall i :: 0 <= i < |entries| && entries[i].Some? ==> entries[i].value.0 in KEYS
    ensures Fill(entries).Keys <= KEYS
  {
    if entries != [] {
      FillKeys(entries[..|entries| - 1]);
    }
  }

  /** `read_config` keeps only url, key and verify; a key is present exactly when
      some line sets it, and its value is the one from the last such line. */
  lemma LastLineWins(lines: seq<string>, k: string)
    ensures ConfigOf(lines).Keys <= KEYS
    ensures k in ConfigOf(lines) <==> exists i :: 0 <= i < |lines| && Sets(ParseLine(lines[i]), k)
    ensures k in ConfigOf(lines) ==>
      exists i :: 0 <= i < |lines| && ParseLine(lines[i]) == Some((k, ConfigOf(lines)[k]))
        && forall j :: i < j < |lines| ==> !Sets(ParseLine(lines[j]), k)
  {
    var entries := Entries(lines);
    forall i | 0 <= i < |lines|
      ensures entries[i] == ParseLine(lines[i])
    {
      EntriesAt(lines, i);
    }
    FillKeys(entries);
    LastEntryWins(entries, k);
    if k in ConfigOf(lines) {
      var i :| 0 <= i < |entries| && entries[i] == Some((k, Fill(entries)[k]))
        && forall j :: i < j < |entries| ==> !Sets(entries[j], k);
      assert ParseLine(lines[i]) == entries[i];
    }
  }

  /** What `ParseLine` does to a line whose stripped form is `k + ":" + rest`. */
  lemma ParseStripped(line: string, k: string, rest: string)
    requires Strip(line) == k + [':'] + rest
    requires ':' !in k
    ensures ParseLine(line) == if k in KEYS then Some((k, Strip(rest))) else None
  {
    StripKeeps(line, ':');
    assert ':' in Strip(line) by { assert Strip(line)[|k|] == ':'; }
    IndexOfFirst(k, ':', rest);
    var s := k + [':'] + rest;
    assert s[..|k|] == k && s[|k| + 1..] == rest;
    assert SplitFirst(Strip(line), ':') == (k, rest);
  }

  lemma StripKeyValue(k: string, v: string)
    requires k != [] && !IsSpace(k[0])
    requires v == [] || (!IsSpace(v[0]) && !IsSpace(v[|v| - 1]))
    ensures Strip(k + ": " + v + "\n") == k + [':'] + (if v == [] then "" else " " + v)
  {
    var line := k + ": " + v + "\n";
    var tail := " " + v + "\n";
    assert line == (k + ":") + tail;
    assert line[0] == k[0];
    assert TrimLeft(line) == line;
    TrimRightAppend(k + ":", tail);
    assert TrimRight("\n") == "" by {
      assert "\n"[..0] == "";
    }
    if v != [] {
      assert tail == (" " + v) + "\n";
      TrimRightAppend(" " + v, "\n");
      assert TrimRight(tail) == " " + v;
    } else {
      assert tail[..1] == " ";
      assert " "[..0] == "";
      assert TrimRight(tail) == "";
    }
  }

  /** The value is everything after the first ':', stripped, whatever ':' it holds. */
  lemma ValueKeepsColons(k: string, v: string)
    requires k in KEYS
    requires v == [] || (!IsSpace(v[0]) && !IsSpace(v[|v| - 1]))
    ensures ParseLine(k + ": " + v + "\n") == Some((k, v))
  {
    var rest := if v == [] then "" else " " + v;
    StripKeyValue(k, v);
    ParseStripped(k + ": " + v + "\n", k, rest);
    StripPadded(v);
  }

  lemma StripPadded(v: string)
    requires v == [] || (!IsSpace(v[0]) && !IsSpace(v[|v| - 1]))
    ensures Strip(if v == [] then "" else " " + v) == v
  {
    if v != [] {
      assert (" " + v)[1..] == v;
    }
  }

  /** The key is not stripped after the cut: white space before the ':' loses the line. */
  lemma KeyShape(k: string)
    requires k in KEYS
    ensures k != [] && !IsSpace(k[0]) && ':' !in k && k + " " !in KEYS
  {
  }

  lemma SpaceBeforeColonIgnored(k: string, v: string)
    requires k in KEYS
    ensures ParseLine(k + " :" + v) == None
  {
    KeyShape(k);
    var line := k + " :" + v;
    var head := k + " :";
    assert line == head + v;
    assert line[0] == k[0];
    assert TrimLeft(line) == line;
    assert head[|head| - 1] == ':';
    TrimRightAppend(head, v);
    assert Strip(line) == (k + " ") + [':'] + TrimRight(v);
    ParseStripped(line, k + " ", TrimRight(v));
  }
}

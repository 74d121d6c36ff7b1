/**
 * The `.env` file format shared by `load_env.load` and `grader.load_env_vars`:
 * one `KEY=value` assignment per line, blank lines, `#` comments and lines
 * without `=` ignored, and `os.environ.setdefault` semantics (a variable that
 * is already set keeps its value).
 */
module EnvFile {
  import opened Types
  import opened Text

  /** One accepted assignment of a `.env` file. */
  datatype Entry = Entry(key: string, value: string)

  /** The trimmed line is blank, a comment, or holds no `=`. */
  predicate Skipped(line: string) {
    line == [] || StartsWith(line, "#") || '=' !in line
  }

  /** Strip the line, skip it if `Skipped`, otherwise split it at its first `=`. */
  function ParseLine(raw: string): (e: Option<Entry>)
    ensures e.None? <==> Skipped(Strip(raw))
    ensures e.Some? ==> Strip(raw) == e.value.key + "=" + e.value.value
    ensures e.Some? ==> '=' !in e.value.key
  {
    var line := Strip(raw);
    if Skipped(line) then None
    else
      var i := FirstIndex(line, '=');
      SplitAround(line, i);
      Some(Entry(line[..i], line[i + 1..]))
  }

  /** The key is what precedes the first `=`; the value keeps every later `=` and is not trimmed. */
  lemma SplitAtFirstEquals(raw: string, key: string, value: string)
    requires !Skipped(Strip(raw))
    requires Strip(raw) == key + "=" + value && '=' !in key
    ensures ParseLine(raw) == Some(Entry(key, value))
  {
    var line := Strip(raw);
    var e := ParseLine(raw).value;
    assert line[..|key|] == key && line[|key|] == '=';
    assert line[..|e.key|] == e.key && line[|e.key|] == '=';
    forall j | 0 <= j < |key| ensures line[j] != '=' {
      assert line[j] == key[j] && key[j] in key;
    }
    forall j | 0 <= j < |e.key| ensures line[j] != '=' {
      assert line[j] == e.key[j] && e.key[j] in e.key;
    }
    assert |e.key| == |key|;
    assert e.key == key;
    assert line[|key| + 1..] == value && line[|e.key| + 1..] == e.value;
  }

  /** Whitespace before a line, U+001C to U+001F included, does not change how it parses. */
  lemma LeadingSpaceIgnored(c: char, raw: string)
    requires IsSpace(c)
    ensures ParseLine([c] + raw) == ParseLine(raw)
  {
    assert ([c] + raw)[1..] == raw;
  }

  /** `env.setdefault(e.key, e.value)`. */
  function WithDefault(env: map<string, string>, e: Entry): (env': map<string, string>)
    ensures env'.Keys == env.Keys + {e.key}
    ensures forall k :: k in env ==> env'[k] == env[k]
    ensures e.key !in env ==> env'[e.key] == e.value
  {
    if e.key in env then env else env[e.key := e.value]
  }

  /** The accepted assignments of a file, line by line; `None` for a skipped line. */
  function ParseLines(lines: seq<string>): (es: seq<Option<Entry>>)
    ensures |es| == |lines|
  {
    if lines == [] then [] else ParseLines(lines[..|lines| - 1]) + [ParseLine(lines[|lines| - 1])]
  }

  /** Entry `i` of the parsed file is the parse of line `i`. */
  lemma {:induction false} ParseLinesAt(lines: seq<string>, i: nat)
    requires i < |lines|
    ensures ParseLines(lines)[i] == ParseLine(lines[i])
  {
    if i < |lines| - 1 {
      ParseLinesAt(lines[..|lines| - 1], i);
    }
  }

  /** Parsing is line by line, so it distributes over concatenation. */
  lemma {:induction false} ParseLinesConcat(a: seq<string>, b: seq<string>)
    ensures ParseLines(a + b) == ParseLines(a) + ParseLines(b)
  {
    if b == [] {
      assert a + b == a;
    } else {
      var init := b[..|b| - 1];
      assert (a + b)[..|a + b| - 1] == a + init;
      assert (a + b)[|a + b| - 1] == b[|b| - 1];
      ParseLinesConcat(a, init);
    }
  }

  /** The environment after applying one parsed line. */
  function Step(env: map<string, string>, e: Option<Entry>): map<string, string> {
    match e
    case None => env
    case Some(entry) => WithDefault(env, entry)
  }

  /** The environment after applying parsed lines in order, starting from `env`. */
  function Apply(env: map<string, string>, es: seq<Option<Entry>>): map<string, string> {
    if es == [] then env
    else Step(Apply(env, es[..|es| - 1]), es[|es| - 1])
  }

  /** The environment after loading a file whose lines are `lines`. */
  function Loaded(env: map<string, string>, lines: seq<string>): map<string, string> {
    Apply(env, ParseLines(lines))
  }

  /** Loading one more line is one more `Step`. */
  lemma LoadedPrefix(env: map<string, string>, lines: seq<string>, i: nat)
    requires i < |lines|
    ensures Loaded(env, lines[..i + 1]) == Step(Loaded(env, lines[..i]), ParseLine(lines[i]))
  {
    var pre, pre1 := lines[..i], lines[..i + 1];
    assert pre1[..|pre1| - 1] == pre && pre1[|pre1| - 1] == lines[i];
    var es := ParseLines(pre1);
    assert es == ParseLines(pre) + [ParseLine(lines[i])];
    assert es[..|es| - 1] == ParseLines(pre) && es[|es| - 1] == ParseLine(lines[i]);
  }

  /** Parsed line `i` is an assignment to `key`. */
  predicate AssignsAt(es: seq<Option<Entry>>, i: int, key: string) {
    0 <= i < |es| && es[i].Some? && es[i].value.key == key
  }

  /** Reference reading of a file: the value of the first assignment to `key`. */
  function FirstValue(es: seq<Option<Entry>>, key: string): Option<string> {
    if es == [] then None
    else if AssignsAt(es, 0, key) then Some(es[0].value.value)
    else FirstValue(es[1..], key)
  }

  /** Parsed line `i` is the first assignment to `key`. */
  predicate FirstAssignsAt(es: seq<Option<Entry>>, i: int, key: string) {
    AssignsAt(es, i, key) && forall j :: 0 <= j < i ==> !AssignsAt(es, j, key)
  }

  /** `FirstValue` finds a value exactly when some line assigns the key, and then it is the first such line's. */
  lemma {:induction false} FirstValueSpec(es: seq<Option<Entry>>, key: string)
    ensures FirstValue(es, key).None? <==> forall i :: 0 <= i < |es| ==> !AssignsAt(es, i, key)
    ensures FirstValue(es, key).Some? ==>
      exists i :: FirstAssignsAt(es, i, key) && es[i].value.value == FirstValue(es, key).value
  {
    if es != [] && !AssignsAt(es, 0, key) {
      var tail := es[1..];
      FirstValueSpec(tail, key);
      if FirstValue(tail, key).Some? {
        var i :| FirstAssignsAt(tail, i, key) && tail[i].value.value == FirstValue(tail, key).value;
        assert es[i + 1] == tail[i];
        forall j | 0 <= j < i + 1 ensures !AssignsAt(es, j, key) {
          if j > 0 {
            assert es[j] == tail[j - 1];
            assert !AssignsAt(tail, j - 1, key);
          }
        }
        assert FirstAssignsAt(es, i + 1, key);
      } else {
        forall i | 0 <= i < |es| ensures !AssignsAt(es, i, key) {
          if i > 0 {
            assert es[i] == tail[i - 1];
            assert !AssignsAt(tail, i - 1, key);
          }
        }
      }
    } else if es != [] {
      assert FirstAssignsAt(es, 0, key);
    }
  }

  /** Adding a line at the end only matters for keys no earlier line assigned. */
  lemma {:induction false} FirstValueSnoc(es: seq<Option<Entry>>, e: Option<Entry>, key: string)
    ensures FirstValue(es + [e], key) ==
      if FirstValue(es, key).Some? then FirstValue(es, key)
      else if e.Some? && e.value.key == key then Some(e.value.value)
      else None
  {
    if es != [] {
      assert (es + [e])[0] == es[0];
      assert (es + [e])[1..] == es[1..] + [e];
      FirstValueSnoc(es[1..], e, key);
    } else {
      assert [] + [e] == [e];
    }
  }

  /**
   * What loading does to one variable: a variable already set keeps its value;
   * an unset one takes the value of the first line that assigns it, and stays
   * unset when no line does.
   */
  lemma {:induction false} ApplyAt(env: map<string, string>, es: seq<Option<Entry>>, key: string)
    ensures key in Apply(env, es) <==> key in env || FirstValue(es, key).Some?
    ensures key in Apply(env, es) ==>
      Apply(env, es)[key] == if key in env then env[key] else FirstValue(es, key).value
  {
    if es != [] {
      var init, e := es[..|es| - 1], es[|es| - 1];
      assert es == init + [e];
      ApplyAt(env, init, key);
      FirstValueSnoc(init, e, key);
    }
  }

  /** The variables set after loading: the old ones and the keys of accepted lines, nothing else. */
  lemma LoadedKeys(env: map<string, string>, lines: seq<string>)
    ensures Loaded(env, lines).Keys ==
      env.Keys + set i | 0 <= i < |lines| && ParseLine(lines[i]).Some? :: ParseLine(lines[i]).value.key
  {
    var es := ParseLines(lines);
    var fileKeys := set i | 0 <= i < |lines| && ParseLine(lines[i]).Some? :: ParseLine(lines[i]).value.key;
    forall k ensures k in Loaded(env, lines) <==> k in env || k in fileKeys {
      ApplyAt(env, es, k);
      FirstValueSpec(es, k);
      if FirstValue(es, k).Some? {
        var i :| FirstAssignsAt(es, i, k);
        ParseLinesAt(lines, i);
        assert k in fileKeys;
      }
      if k in fileKeys {
        var i :| 0 <= i < |lines| && ParseLine(lines[i]).Some? && ParseLine(lines[i]).value.key == k;
        ParseLinesAt(lines, i);
        assert AssignsAt(es, i, k);
      }
    }
  }

  /** A variable that is already set is never overwritten. */
  lemma KeepsExisting(env: map<string, string>, lines: seq<string>, key: string)
    requires key in env
    ensures key in Loaded(env, lines) && Loaded(env, lines)[key] == env[key]
  {
    ApplyAt(env, ParseLines(lines), key);
  }

  /** Of several lines assigning the same unset key, the first one wins. */
  lemma FirstAssignmentWins(env: map<string, string>, lines: seq<string>, i: nat, key: string, value: string)
    requires key !in env
    requires i < |lines| && ParseLine(lines[i]) == Some(Entry(key, value))
    requires forall j :: 0 <= j < i ==> ParseLine(lines[j]).None? || ParseLine(lines[j]).value.key != key
    ensures key in Loaded(env, lines) && Loaded(env, lines)[key] == value
  {
    var es := ParseLines(lines);
    ParseLinesAt(lines, i);
    forall j | 0 <= j < i ensures !AssignsAt(es, j, key) {
      ParseLinesAt(lines, j);
    }
    ApplyFirstWins(env, es, i, key);
  }

  /** `FirstAssignmentWins` on parsed lines. */
  lemma ApplyFirstWins(env: map<string, string>, es: seq<Option<Entry>>, i: nat, key: string)
    requires key !in env && FirstAssignsAt(es, i, key)
    ensures key in Apply(env, es) && Apply(env, es)[key] == es[i].value.value
  {
    ApplyAt(env, es, key);
    FirstValueSpec(es, key);
    var i' :| FirstAssignsAt(es, i', key) && es[i'].value.value == FirstValue(es, key).value;
    assert i' == i;
  }

  /** Loading a file is laying its own first-wins assignments under the existing environment. */
  lemma LoadedIsUnion(env: map<string, string>, lines: seq<string>)
    ensures Loaded(env, lines) == Loaded(map[], lines) + env
  {
    var es := ParseLines(lines);
    forall k ensures (k in Apply(env, es) <==> k in Apply(map[], es) + env)
      && (k in Apply(env, es) ==> Apply(env, es)[k] == (Apply(map[], es) + env)[k])
    {
      ApplyAt(env, es, k);
      ApplyAt(map[], es, k);
    }
  }

  /** Loading the same file a second time changes nothing. */
  lemma LoadIdempotent(env: map<string, string>, lines: seq<string>)
    ensures Loaded(Loaded(env, lines), lines) == Loaded(env, lines)
  {
    var es := ParseLines(lines);
    var once := Apply(env, es);
    forall k ensures (k in Apply(once, es) <==> k in once)
      && (k in once ==> Apply(once, es)[k] == once[k])
    {
      ApplyAt(once, es, k);
      ApplyAt(env, es, k);
    }
  }

  /** A skipped line can be removed from anywhere in the file without changing the result. */
  lemma SkippedLineIsInert(env: map<string, string>, a: seq<string>, raw: string, b: seq<string>)
    requires ParseLine(raw).None?
    ensures Loaded(env, a + [raw] + b) == Loaded(env, a + b)
  {
    ParseLinesConcat(a + [raw], b);
    ParseLinesConcat(a, [raw]);
    ParseLinesConcat(a, b);
    assert ParseLines([raw]) == [None];
    ApplySkip(env, ParseLines(a), ParseLines(b));
  }

  /** An empty entry anywhere leaves the applied environment alone. */
  lemma ApplySkip(env: map<string, string>, ea: seq<Option<Entry>>, eb: seq<Option<Entry>>)
    ensures Apply(env, ea + [None] + eb) == Apply(env, ea + eb)
  {
    forall k ensures (k in Apply(env, ea + [None] + eb) <==> k in Apply(env, ea + eb))
      && (k in Apply(env, ea + eb) ==> Apply(env, ea + [None] + eb)[k] == Apply(env, ea + eb)[k])
    {
      ApplyAt(env, ea + [None] + eb, k);
      ApplyAt(env, ea + eb, k);
      FirstValueSkip(ea, eb, k);
    }
  }

  /** An empty entry in the middle never changes which assignment comes first. */
  lemma {:induction false} FirstValueSkip(a: seq<Option<Entry>>, b: seq<Option<Entry>>, key: string)
    ensures FirstValue(a + [None] + b, key) == FirstValue(a + b, key)
  {
    if a == [] {
      assert [] + [None] + b == [None] + b;
      assert ([None] + b)[1..] == b;
      assert [] + b == b;
    } else {
      assert (a + [None] + b)[0] == (a + b)[0] == a[0];
      assert (a + [None] + b)[1..] == a[1..] + [None] + b;
      assert (a + b)[1..] == a[1..] + b;
      FirstValueSkip(a[1..], b, key);
    }
  }

  /** The process environment (`os.environ`), updated in place. */
  class Environment {
    var vars: map<string, string>

    constructor (initial: map<string, string>)
      ensures vars == initial
    {
      vars := initial;
    }

    /** `os.environ.setdefault(key, value)`. */
    method SetDefault(key: string, value: string)
      modifies this
      ensures vars == WithDefault(old(vars), Entry(key, value))
    {
      if key !in vars {
        vars := vars[key := value];
      }
    }
  }
}

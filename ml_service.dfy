/** `transformAudio` in lib/ml-service.ts: it picks the transform script,
    builds one command line, starts it with the plain (callback-style)
    `child_process.exec`, and resolves with `true` as soon as the call
    returns. Only an exception from the `exec` call itself reaches the
    fallback copy. */
module MlService {
  import opened Text

  type Disk = map<string, seq<byte>>

  /** The compile-time switch between the two transform scripts. */
  const UseMagenta := true

  /** `path.join(cwd, 'ml_scripts', name)`, for a normalised absolute `cwd`
      without a trailing separator. */
  function ScriptsPath(cwd: string, name: string): string {
    cwd + "/ml_scripts/" + name
  }

  function ScriptPath(cwd: string): string {
    ScriptsPath(cwd, if UseMagenta then "magenta_transform.py" else "spleeter_transform.py")
  }

  function BatchPath(cwd: string): string {
    ScriptsPath(cwd, "run_spleeter.bat")
  }

  /** `"<a>"`, one argument in double quotes. */
  function Quoted(a: string): string {
    "\"" + a + "\""
  }

  /** The parts of a command line, separated by single spaces. */
  function JoinSpaced(parts: seq<string>): string
    decreases |parts|
  {
    if parts == [] then ""
    else if |parts| == 1 then parts[0]
    else parts[0] + " " + JoinSpaced(parts[1..])
  }

  /** The command line: batch path and script path bare, then the input,
      output and genre each in double quotes. */
  function Command(cwd: string, input: string, output: string, genre: string): string {
    JoinSpaced([BatchPath(cwd), ScriptPath(cwd), Quoted(input), Quoted(output), Quoted(genre)])
  }

  /** With the switch on, the Magenta script is the one selected, never the
      Spleeter one. */
  lemma MagentaScriptSelected(cwd: string)
    ensures ScriptPath(cwd) == cwd + "/ml_scripts/magenta_transform.py"
    ensures ScriptPath(cwd) != ScriptsPath(cwd, "spleeter_transform.py")
  {
    var m, s := ScriptPath(cwd), ScriptsPath(cwd, "spleeter_transform.py");
    assert m[|cwd| + 12] == 'm' && s[|cwd| + 12] == 's';
  }

  // ---------------------------------------------------------------------
  // How a shell splits the command line into words: spaces separate words,
  // double quotes group (no escapes).

  /** The first position of `c` in `s`, or `|s|` when it does not occur. */
  function IndexOf(s: string, c: char): (k: nat)
    ensures k <= |s| && (k < |s| ==> s[k] == c)
    ensures forall j :: 0 <= j < k ==> s[j] != c
    decreases |s|
  {
    if s == [] then 0 else if s[0] == c then 0 else 1 + IndexOf(s[1..], c)
  }

  function Words(s: string): seq<string>
    decreases |s|
  {
    if s == [] then []
    else if s[0] == ' ' then Words(s[1..])
    else if s[0] == '"' then
      var k := IndexOf(s[1..], '"');
      [s[1..1 + k]] + (if 1 + k < |s| then Words(s[2 + k..]) else [])
    else
      var k := IndexOf(s, ' ');
      [s[..k]] + Words(s[k..])
  }

  predicate Plain(w: string) {
    w != [] && forall i :: 0 <= i < |w| ==> w[i] != ' ' && w[i] != '"'
  }

  predicate NoQuote(w: string) {
    forall i :: 0 <= i < |w| ==> w[i] != '"'
  }

  lemma PlainWord(w: string, rest: string)
    requires Plain(w)
    ensures Words(w + " " + rest) == [w] + Words(" " + rest)
  {
    var s := w + " " + rest;
    assert s[|w|] == ' ';
    var k := IndexOf(s, ' ');
    assert k == |w|;
    assert s[..k] == w && s[k..] == " " + rest;
  }

  lemma QuotedWord(a: string, rest: string)
    requires NoQuote(a)
    ensures Words(Quoted(a) + rest) == [a] + Words(rest)
  {
    var s := Quoted(a) + rest;
    assert s[1..][|a|] == '"';
    var k := IndexOf(s[1..], '"');
    assert k == |a|;
    assert s[1..1 + k] == a && s[2 + k..] == rest;
  }

  lemma SpaceSkipped(rest: string)
    ensures Words(" " + rest) == Words(rest)
  {
    assert (" " + rest)[1..] == rest;
  }

  lemma PlainPath(cwd: string, name: string)
    requires Plain(cwd) && Plain(name)
    ensures Plain(ScriptsPath(cwd, name))
  {
    var b := ScriptsPath(cwd, name);
    forall i | 0 <= i < |b| ensures b[i] != ' ' && b[i] != '"' {
      if i < |cwd| {
        assert b[i] == cwd[i];
      } else if i >= |cwd| + 12 {
        assert b[i] == name[i - |cwd| - 12];
      }
    }
  }

  lemma PlainAlone(w: string)
    requires Plain(w)
    ensures Words(w) == [w]
  {
    assert w[0] != ' ' && w[0] != '"';
    assert IndexOf(w, ' ') == |w|;
    assert w[..|w|] == w && w[|w|..] == [];
    assert Words(w) == [w[..|w|]] + Words(w[|w|..]);
  }

  /** Each part of a spaced command line is either a plain word or a quoted
      argument without quotes inside. */
  predicate ReadsAs(part: string, word: string) {
    (part == word && Plain(word)) || (part == Quoted(word) && NoQuote(word))
  }

  /** Splitting a spaced command line gives back the words its parts stand
      for, in order. */
  lemma {:induction false} JoinedWords(parts: seq<string>, words: seq<string>)
    requires |parts| == |words|
    requires forall k :: 0 <= k < |parts| ==> ReadsAs(parts[k], words[k])
    ensures Words(JoinSpaced(parts)) == words
    decreases |parts|
  {
    if |parts| == 0 {
    } else if |parts| == 1 {
      if parts[0] == Quoted(words[0]) && NoQuote(words[0]) {
        assert parts[0] + "" == parts[0];
        QuotedWord(words[0], "");
      } else {
        PlainAlone(words[0]);
      }
      assert words == [words[0]];
    } else {
      var rest := JoinSpaced(parts[1..]);
      JoinedWords(parts[1..], words[1..]);
      SpaceSkipped(rest);
      if parts[0] == Quoted(words[0]) && NoQuote(words[0]) {
        assert parts[0] + " " + rest == Quoted(words[0]) + (" " + rest);
        QuotedWord(words[0], " " + rest);
      } else {
        PlainWord(words[0], rest);
      }
      assert words == [words[0]] + words[1..];
    }
  }

  /** When the working directory has no space or quote and the arguments no
      quote, the shell sees exactly five words: batch path, script path,
      input, output and genre, in that order. */
  lemma CommandWords(cwd: string, input: string, output: string, genre: string)
    requires Plain(cwd)
    requires NoQuote(input) && NoQuote(output) && NoQuote(genre)
    ensures Words(Command(cwd, input, output, genre)) == [BatchPath(cwd), ScriptPath(cwd), input, output, genre]
  {
    PlainPath(cwd, "run_spleeter.bat");
    PlainPath(cwd, "magenta_transform.py");
    JoinedWords([BatchPath(cwd), ScriptPath(cwd), Quoted(input), Quoted(output), Quoted(genre)],
                [BatchPath(cwd), ScriptPath(cwd), input, output, genre]);
  }

  /** The two paths are not quoted: a working directory `a b` makes the
      shell's first word `a`, not the batch script. */
  lemma UnquotedDirectorySplits(a: string, b: string, input: string, output: string, genre: string)
    requires Plain(a)
    ensures Words(Command(a + " " + b, input, output, genre))[0] == a
  {
    var cwd := a + " " + b;
    var x := Command(cwd, input, output, genre);
    assert x == BatchPath(cwd) + " " + JoinSpaced([ScriptPath(cwd), Quoted(input), Quoted(output), Quoted(genre)]);
    assert x[|a|] == ' ';
    assert x[..|a|] == a;
    assert IndexOf(x, ' ') == |a|;
  }

  // ---------------------------------------------------------------------
  // The wrapper

  datatype Outcome = ReturnsTrue | ReturnsFalse | Rethrows

  /** `transformAudio(input, output, genre)`. `execThrows` says whether the
      `exec` call itself throws for a command line; the child process it
      starts runs on after the function has returned, so neither its exit
      status nor its output file is anything the function sees. Returns the
      command line started, if any. */
  method TransformAudio(disk: Disk, cwd: string, input: string, output: string, genre: string,
                        execThrows: string -> bool, copyFails: bool)
    returns (outcome: Outcome, disk': Disk, started: Option<string>)
    ensures var cmd := Command(cwd, input, output, genre);
            (outcome == ReturnsTrue <==> !execThrows(cmd)) &&
            (outcome == ReturnsTrue ==> started == Some(cmd) && disk' == disk) &&
            (outcome == ReturnsFalse <==> execThrows(cmd) && input in disk && !copyFails) &&
            (outcome == ReturnsFalse ==> started == None && disk' == disk[output := disk[input]]) &&
            (outcome == Rethrows ==> started == None && disk' == disk)
  {
    disk', started := disk, None;
    var scriptPath := ScriptPath(cwd);
    var cmd := JoinSpaced([BatchPath(cwd), scriptPath, Quoted(input), Quoted(output), Quoted(genre)]);
    if !execThrows(cmd) {
      // The un-promisified `exec` hands back the child at once; awaiting it
      // does not wait for the script to exit.
      started := Some(cmd);
      outcome := ReturnsTrue;
      return;
    }
    // Fallback: copy the input over the output; a failing copy is rethrown.
    if input !in disk' || copyFails {
      outcome := Rethrows;
      return;
    }
    disk' := disk'[output := disk'[input]];
    outcome := ReturnsFalse;
  }
}

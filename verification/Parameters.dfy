/**
 The job context and the step parameters of a bash job script, as printed and as the shell
 variables they become.
 */
module Parameters {
  import opened Wrappers
  import opened Shell

  /** What a flow gives the parameters of one step. */
  type Given = map<string, string>

  function ValueOf(key: string, given: Given): string {
    if key in given then given[key] else ""
  }

  function Own(key: string, given: Given): seq<Assign> {
    if Safe(key) == "" then [] else [Assign(Safe(key), ValueOf(key, given))]
  }

  /** One assignment per declared parameter whose sanitised key is not empty. */
  function Declared(params: seq<string>, given: Given): seq<Assign> {
    if params == [] then [] else Own(params[0], given) + Declared(params[1..], given)
  }

  lemma {:induction false} DeclaredConcat(params: seq<string>, more: seq<string>, given: Given)
    ensures Declared(params + more, given) == Declared(params, given) + Declared(more, given)
  {
    hide Own;
    if params == [] {
      assert params + more == more;
    } else {
      DeclaredConcat(params[1..], more, given);
      assert (params + more)[1..] == params[1..] + more;
    }
  }

  lemma {:induction false} PrintConcat(indent: string, block: seq<Assign>, more: seq<Assign>)
    ensures Print(indent, block + more) == Print(indent, block) + Print(indent, more)
  {
    hide Line;
    if block == [] {
      assert block + more == more;
    } else {
      PrintConcat(indent, block[1..], more);
      assert (block + more)[1..] == block[1..] + more && (block + more)[0] == block[0];
      assert Print(indent, block + more) == Line(indent, block[0]) + Print(indent, block[1..] + more);
      assert Print(indent, block) == Line(indent, block[0]) + Print(indent, block[1..]);
      hide Print;
    }
  }

  lemma PrintNext(params: seq<string>, i: nat, given: Given)
    requires i < |params|
    ensures Print("    ", Declared(params[..i + 1], given)) == Print("    ", Declared(params[..i], given)) +
            if Safe(params[i]) == "" then "" else Line("    ", Assign(Safe(params[i]), ValueOf(params[i], given)))
  {
    hide Line, Safe, ValueOf;
    assert params[..i + 1] == params[..i] + [params[i]];
    DeclaredConcat(params[..i], [params[i]], given);
    assert Declared([params[i]], given) == Own(params[i], given);
    PrintConcat("    ", Declared(params[..i], given), Own(params[i], given));
  }

  method ParamsLiteral(params: seq<string>, given: Given) returns (text: string)
    ensures text == Print("    ", Declared(params, given))
  {
    hide Line, Safe, Declared;
    text := "";
    assert Declared([], given) == [] by {
      DeclaredNone(given);
    }
    for i := 0 to |params|
      invariant text == Print("    ", Declared(params[..i], given))
    {
      PrintNext(params, i, given);
      var key := SafeIdent(params[i]);
      if key == "" {
        continue;
      }
      var value := "";
      if params[i] in given {
        value := given[params[i]];
      }
      text := text + Line("    ", Assign(key, value));
    }
    assert params[..|params|] == params;
  }

  lemma DeclaredNone(given: Given)
    ensures Declared([], given) == []
  {
  }

  /**
   A block that assigns, in order, the parameters at the positions `at`: each by its sanitised key,
   to the value that the flow gives for its own key, or to nothing.
   */
  ghost predicate Lists(block: seq<Assign>, params: seq<string>, given: Given, at: seq<nat>) {
    && |at| == |block|
    && (forall i, k :: 0 <= i < k < |at| ==> at[i] < at[k])
    && (forall k :: 0 <= k < |params| ==> (k in at <==> Safe(params[k]) != ""))
    && forall i :: 0 <= i < |at| ==>
      && at[i] < |params| && block[i].name == Safe(params[at[i]])
      && (params[at[i]] in given ==> block[i].value == given[params[at[i]]])
      && (params[at[i]] !in given ==> block[i].value == "")
  }

  /** The block of a step lists all its parameters whose sanitised key is not empty, and nothing else. */
  lemma {:induction false} DeclaredLists(params: seq<string>, given: Given) returns (at: seq<nat>)
    ensures Lists(Declared(params, given), params, given, at)
  {
    if params == [] {
      at := [];
    } else {
      var init, last := params[..|params| - 1], params[|params| - 1];
      assert params == init + [last];
      var before := DeclaredLists(init, given);
      DeclaredConcat(init, [last], given);
      DeclaredOne(last, given);
      at := before + if Safe(last) == "" then [] else [|init|];
      hide Safe, Declared;
      ListsNext(Declared(init, given), init, given, before, last);
    }
  }

  lemma DeclaredOne(key: string, given: Given)
    ensures Declared([key], given) == Own(key, given)
  {
    hide Own;
  }

  lemma ListsNext(block: seq<Assign>, params: seq<string>, given: Given, at: seq<nat>, key: string)
    requires Lists(block, params, given, at)
    ensures Lists(block + Own(key, given), params + [key], given, at + if Safe(key) == "" then [] else [|params|])
  {
    hide Safe;
    var at2, params2 := at + if Safe(key) == "" then [] else [|params|], params + [key];
    assert forall x :: x in at ==> x < |params|;
    forall k | 0 <= k < |params2| ensures k in at2 <==> Safe(params2[k]) != "" {
      assert k < |params| ==> params2[k] == params[k] && (k in at2 <==> k in at);
    }
  }

  // ---- the shell's variables ----

  type Variables = map<string, string>

  /** The variable in which bash keeps the last argument; a line of one assignment has none. */
  const LAST := "_"

  function Set(env: Variables, a: Assign): Variables {
    env[a.name := a.value][LAST := ""]
  }

  function Run(env: Variables, block: seq<Assign>): Variables
    decreases |block|
  {
    if block == [] then env else Run(Set(env, block[0]), block[1..])
  }

  /** The variables after a text that reads as assignments. */
  function Perform(env: Variables, text: string): Option<Variables> {
    var block := Read(text);
    if block.Some? then Some(Run(env, block.value)) else None
  }

  predicate Sets(block: seq<Assign>, name: string) {
    exists a :: a in block && a.name == name
  }

  lemma {:induction false} RunConcat(env: Variables, block: seq<Assign>, more: seq<Assign>)
    ensures Run(env, block + more) == Run(Run(env, block), more)
    decreases |block|
  {
    if block == [] {
      assert block + more == more;
    } else {
      RunConcat(Set(env, block[0]), block[1..], more);
      assert (block + more)[1..] == block[1..] + more;
    }
  }

  /** Variables that no assignment names keep their value or stay unset, but for the last argument. */
  lemma {:induction false} RunKeeps(env: Variables, block: seq<Assign>, name: string)
    requires !Sets(block, name) && name != LAST
    ensures name in Run(env, block) <==> name in env
    ensures name in env ==> Run(env, block)[name] == env[name]
    decreases |block|
  {
    if block != [] {
      assert block[0] in block;
      assert forall a :: a in block[1..] ==> a in block;
      RunKeeps(Set(env, block[0]), block[1..], name);
    }
  }

  /** The last assignment to a name decides, whatever the variables were before. */
  lemma RunLast(env: Variables, before: seq<Assign>, a: Assign, later: seq<Assign>)
    requires !Sets(later, a.name) && a.name != LAST
    ensures a.name in Run(env, before + [a] + later) && Run(env, before + [a] + later)[a.name] == a.value
  {
    RunConcat(env, before + [a], later);
    RunConcat(env, before, [a]);
    assert [a][1..] == [];
    RunKeeps(Run(env, before + [a]), later, a.name);
  }

  /** After any assignment the last argument is empty. */
  lemma {:induction false} RunResets(env: Variables, block: seq<Assign>)
    requires block != [] || (LAST in env && env[LAST] == "")
    ensures LAST in Run(env, block) && Run(env, block)[LAST] == ""
    decreases |block|
  {
    if block != [] {
      RunResets(Set(env, block[0]), block[1..]);
    }
  }

  // ---- a step's block ----

  predicate NulFreeValues(given: Given) {
    forall k :: k in given ==> NulFree(given[k])
  }

  lemma {:induction false} DeclaredNames(params: seq<string>, given: Given)
    ensures forall a :: a in Declared(params, given) ==> exists k :: 0 <= k < |params| && Own(params[k], given) == [a]
    ensures forall k :: 0 <= k < |params| && Safe(params[k]) != "" ==>
      Own(params[k], given)[0] in Declared(params, given)
  {
    hide Safe;
    if params != [] {
      DeclaredNames(params[1..], given);
      forall a | a in Declared(params, given) ensures exists k :: 0 <= k < |params| && Own(params[k], given) == [a] {
        if a in Own(params[0], given) {
          assert Own(params[0], given) == [a];
        } else {
          var k :| 0 <= k < |params[1..]| && Own(params[1..][k], given) == [a];
          assert Own(params[k + 1], given) == [a];
        }
      }
      forall k | 0 <= k < |params| && Safe(params[k]) != ""
        ensures Own(params[k], given)[0] in Declared(params, given) {
        if k > 0 {
          assert params[k] == params[1..][k - 1];
          assert Own(params[k], given)[0] in Declared(params[1..], given);
        }
      }
    }
  }

  lemma DeclaredPrintable(params: seq<string>, given: Given)
    requires NulFreeValues(given)
    ensures Printable(Declared(params, given))
  {
    DeclaredNames(params, given);
    hide Safe, Declared;
    forall a | a in Declared(params, given)
      ensures a.name != "" && (forall c :: c in a.name ==> NameChar(c)) && NulFree(a.value)
    {
      var k :| 0 <= k < |params| && Own(params[k], given) == [a];
      SafeIsSafe(params[k]);
    }
  }

  /** The keys that count are shell names: after sanitising, none starts with a digit. */
  predicate ShellKeys(params: seq<string>) {
    forall k :: 0 <= k < |params| && Safe(params[k]) != "" ==> ValidName(Safe(params[k]))
  }

  /** A step's block runs as assignments if and only if its keys are shell names. */
  lemma BlockPerforms(params: seq<string>, given: Given, env: Variables)
    requires NulFreeValues(given)
    ensures Perform(env, Print("    ", Declared(params, given))) ==
            if ShellKeys(params) then Some(Run(env, Declared(params, given))) else None
  {
    DeclaredPrintable(params, given);
    DeclaredNames(params, given);
    var block := Declared(params, given);
    ReadPrint("    ", block);
    hide Safe, Declared, Print, Read, ValidName, Run;
    if a :| a in block && !ValidName(a.name) {
      var k :| 0 <= k < |params| && Own(params[k], given) == [a];
      assert !ShellKeys(params);
    } else {
      forall k | 0 <= k < |params| && Safe(params[k]) != "" ensures ValidName(Safe(params[k])) {
        assert Own(params[k], given)[0] in block;
      }
    }
  }

  /** Parameter `k` can be read back: its variable holds its own value. */
  predicate Readable(params: seq<string>, given: Given, env: Variables, k: nat)
    requires k < |params|
  {
    Safe(params[k]) != "" ==> Safe(params[k]) in env && env[Safe(params[k])] == ValueOf(params[k], given)
  }

  /** Parameters with one sanitised key have one value. */
  predicate Agree(params: seq<string>, given: Given) {
    forall i, k :: 0 <= i < k < |params| && Safe(params[i]) != "" && Safe(params[i]) == Safe(params[k]) ==>
      ValueOf(params[i], given) == ValueOf(params[k], given)
  }

  lemma DeclaredAround(params: seq<string>, given: Given, k: nat)
    requires k < |params|
    ensures Declared(params, given) == Declared(params[..k], given) + Own(params[k], given)
      + Declared(params[k + 1..], given)
  {
    hide Own;
    assert params == params[..k] + ([params[k]] + params[k + 1..]);
    assert ([params[k]] + params[k + 1..])[1..] == params[k + 1..];
    DeclaredConcat(params[..k], [params[k]] + params[k + 1..], given);
  }

  /** The last parameter with a sanitised key sets it, whatever earlier steps left behind. */
  lemma LastParamSets(params: seq<string>, given: Given, env: Variables, k: nat)
    requires k < |params| && Safe(params[k]) != "" && Safe(params[k]) != LAST
    requires forall i :: k < i < |params| ==> Safe(params[i]) != Safe(params[k])
    ensures Readable(params, given, Run(env, Declared(params, given)), k)
  {
    hide Safe, Declared, Run;
    var later := Declared(params[k + 1..], given);
    var a := Assign(Safe(params[k]), ValueOf(params[k], given));
    DeclaredAround(params, given, k);
    assert !Sets(later, a.name) by {
      NotSet(params[k + 1..], given, a.name);
    }
    RunLast(env, Declared(params[..k], given), a, later);
  }

  lemma NotSet(params: seq<string>, given: Given, name: string)
    requires forall i :: 0 <= i < |params| ==> Safe(params[i]) != name
    ensures !Sets(Declared(params, given), name)
  {
    DeclaredNames(params, given);
    hide Safe, Declared;
  }

  lemma {:induction false} LastOf(params: seq<string>, k: nat) returns (last: nat)
    requires k < |params|
    ensures k <= last < |params| && Safe(params[last]) == Safe(params[k])
    ensures forall i :: last < i < |params| ==> Safe(params[i]) != Safe(params[k])
    decreases |params| - k
  {
    hide Safe;
    if i :| k < i < |params| && Safe(params[i]) == Safe(params[k]) {
      last := LastOf(params, i);
    } else {
      last := k;
    }
  }

  /** Parameters called like the last argument have no value. */
  predicate NoneLast(params: seq<string>, given: Given) {
    forall k :: 0 <= k < |params| && Safe(params[k]) == LAST ==> ValueOf(params[k], given) == ""
  }

  /** The last argument reads as empty after any block that assigns something. */
  lemma LastReads(params: seq<string>, given: Given, env: Variables, k: nat)
    requires k < |params| && Safe(params[k]) == LAST
    ensures Readable(params, given, Run(env, Declared(params, given)), k) <==> ValueOf(params[k], given) == ""
  {
    DeclaredNames(params, given);
    assert Own(params[k], given)[0] in Declared(params, given);
    hide Safe, Declared, Run;
    RunResets(env, Declared(params, given));
  }

  lemma AgreeReads(params: seq<string>, given: Given, env: Variables, k: nat)
    requires k < |params| && Agree(params, given) && NoneLast(params, given)
    ensures Readable(params, given, Run(env, Declared(params, given)), k)
  {
    hide Safe, Declared, Run;
    var last := LastOf(params, k);
    if Safe(params[k]) == LAST {
      LastReads(params, given, env, k);
    } else if Safe(params[k]) != "" {
      LastParamSets(params, given, env, last);
    }
  }

  /** Every declared parameter can be read back. */
  predicate AllReadable(params: seq<string>, given: Given, env: Variables) {
    forall k :: 0 <= k < |params| ==> Readable(params, given, env, k)
  }

  lemma ReadsAgree(params: seq<string>, given: Given, env: Variables)
    requires AllReadable(params, given, env)
    ensures Agree(params, given)
  {
    hide Safe, ValueOf;
    forall i, k | 0 <= i < k < |params| && Safe(params[i]) != "" && Safe(params[i]) == Safe(params[k])
      ensures ValueOf(params[i], given) == ValueOf(params[k], given)
    {
      assert Readable(params, given, env, i) && Readable(params, given, env, k);
    }
  }

  lemma ReadsNoneLast(params: seq<string>, given: Given, env: Variables)
    requires AllReadable(params, given, Run(env, Declared(params, given)))
    ensures NoneLast(params, given)
  {
    hide Safe, Declared, Run, ValueOf, Readable;
    forall k | 0 <= k < |params| && Safe(params[k]) == LAST ensures ValueOf(params[k], given) == "" {
      LastReads(params, given, env, k);
      assert Readable(params, given, Run(env, Declared(params, given)), k);
    }
  }

  /**
   After a step's block every declared parameter reads back its own value, from any earlier
   variables, if and only if parameters that share a sanitised key agree and none with a value is
   called `_`; distinct keys always agree.
   */
  lemma BlockSetsParams(params: seq<string>, given: Given, env: Variables)
    ensures AllReadable(params, given, Run(env, Declared(params, given))) <==>
      Agree(params, given) && NoneLast(params, given)
  {
    hide Safe, Declared, Run, Agree, Readable, NoneLast;
    if Agree(params, given) && NoneLast(params, given) {
      forall k | 0 <= k < |params| ensures Readable(params, given, Run(env, Declared(params, given)), k) {
        AgreeReads(params, given, env, k);
      }
    } else {
      hide AllReadable;
      if AllReadable(params, given, Run(env, Declared(params, given))) {
        ReadsAgree(params, given, Run(env, Declared(params, given)));
        ReadsNoneLast(params, given, env);
        assert false;
      }
    }
  }

  // ---- the job context ----

  datatype Vars = Vars(binDir: string, scriptsDir: string, releaseDir: string, group: string, tag: string,
      webhook: string)

  const HEVC_NAME := "1080.hevc"
  const WAV_NAME := "audio.wav"

  function TrimSlashes(s: string): string {
    if s != "" && s[|s| - 1] == '/' then TrimSlashes(s[..|s| - 1]) else s
  }

  function OutputName(series: string, episode: string, tag: string): string {
    series + " - " + episode + " [" + tag + "].mkv"
  }

  function ReleaseFolder(group: string, series: string, tag: string): string {
    "[" + group + "] " + series + " - Raws [" + tag + "]"
  }

  /** The shared variables; `x265` stands for the constant default arguments. */
  function Context(series: string, episodeDir: string, v: Vars, episode: string, scriptName: string,
      x265: string): seq<Assign> {
    var dir := TrimSlashes(v.scriptsDir) + "/" + episodeDir;
    [ Assign("BinDir", v.binDir), Assign("ScriptsDir", v.scriptsDir), Assign("ReleaseDir", v.releaseDir),
      Assign("Series", series), Assign("Episode", episode), Assign("EpisodeDir", dir),
      Assign("ScriptFile", dir + "/" + scriptName), Assign("HevcFile", dir + "/" + HEVC_NAME),
          Assign("AudioFile", dir + "/" + WAV_NAME),
      Assign("OutputName", OutputName(series, episode, v.tag)),
          Assign("ReleaseFolder", ReleaseFolder(v.group, series, v.tag)),
      Assign("DefaultX265Args", x265), Assign("Group", v.group), Assign("Tag", v.tag),
          Assign("DiscordWebhook", v.webhook) ]
  }

  const TITLE := " --- Job context (shared by every step) ---"

  function JobContext(context: seq<Assign>): string {
    "#" + TITLE + "\n" + Print("", context) + "\n"
  }

  /** The folder without the slashes at its end. */
  lemma {:induction false} TrimmedSlashes(s: string)
    ensures var t := TrimSlashes(s);
            t <= s && (t == "" || t[|t| - 1] != '/') && forall i :: |t| <= i < |s| ==> s[i] == '/'
  {
    if s != "" && s[|s| - 1] == '/' {
      TrimmedSlashes(s[..|s| - 1]);
    }
  }

  /** The shared variables that hold what is configured for the node or given by the job, by name. */
  lemma ContextHolds(series: string, episodeDir: string, v: Vars, episode: string, script: string, x265: string)
    ensures var context := Context(series, episodeDir, v, episode, script, x265);
            && |context| == 15
            && Assign("BinDir", v.binDir) in context && Assign("ScriptsDir", v.scriptsDir) in context
            && Assign("ReleaseDir", v.releaseDir) in context && Assign("Group", v.group) in context
            && Assign("Tag", v.tag) in context && Assign("DiscordWebhook", v.webhook) in context
            && Assign("Series", series) in context && Assign("Episode", episode) in context
            && Assign("DefaultX265Args", x265) in context
  {
    var context := Context(series, episodeDir, v, episode, script, x265);
    hide TrimSlashes, OutputName, ReleaseFolder;
    assert context[0] == Assign("BinDir", v.binDir) && context[1] == Assign("ScriptsDir", v.scriptsDir);
    assert context[2] == Assign("ReleaseDir", v.releaseDir) && context[3] == Assign("Series", series);
    assert context[4] == Assign("Episode", episode) && context[11] == Assign("DefaultX265Args", x265);
    assert context[12] == Assign("Group", v.group) && context[13] == Assign("Tag", v.tag);
    assert context[14] == Assign("DiscordWebhook", v.webhook);
  }

  /**
   The paths are in the episode's folder under the scripts folder, without doubled slashes; the names
   of output and release are made of series, episode, group and tag.
   */
  lemma ContextPaths(series: string, episodeDir: string, v: Vars, episode: string, script: string, x265: string,
      root: string)
    requires root <= v.scriptsDir && (root == "" || root[|root| - 1] != '/')
    requires forall i :: |root| <= i < |v.scriptsDir| ==> v.scriptsDir[i] == '/'
    ensures var context := Context(series, episodeDir, v, episode, script, x265); var dir := root + "/" + episodeDir;
            && Assign("EpisodeDir", dir) in context && Assign("ScriptFile", dir + "/" + script) in context
            && Assign("HevcFile", dir + "/" + "1080.hevc") in context
            && Assign("AudioFile", dir + "/" + "audio.wav") in context
            && Assign("OutputName", series + " - " + episode + " [" + v.tag + "].mkv") in context
            && Assign("ReleaseFolder", "[" + v.group + "] " + series + " - Raws [" + v.tag + "]") in context
  {
    RootIs(v.scriptsDir, root);
    hide TrimSlashes;
    var context := Context(series, episodeDir, v, episode, script, x265);
    var dir := root + "/" + episodeDir;
    assert context[5] == Assign("EpisodeDir", dir) && context[6] == Assign("ScriptFile", dir + "/" + script);
    assert context[7] == Assign("HevcFile", dir + "/" + "1080.hevc");
    assert context[8] == Assign("AudioFile", dir + "/" + "audio.wav");
    assert context[9] == Assign("OutputName", series + " - " + episode + " [" + v.tag + "].mkv");
    assert context[10] == Assign("ReleaseFolder", "[" + v.group + "] " + series + " - Raws [" + v.tag + "]");
  }

  lemma RootIs(s: string, root: string)
    requires root <= s && (root == "" || root[|root| - 1] != '/') && forall i :: |root| <= i < |s| ==> s[i] == '/'
    ensures TrimSlashes(s) == root
  {
    TrimmedSlashes(s);
    var t := TrimSlashes(s);
    hide TrimSlashes;
    assert root == s[..|root|] && t == s[..|t|];
    assert |t| == |root|;
  }

  predicate Capitalised(name: string) {
    ValidName(name) && 'A' <= name[0] <= 'Z'
  }

  /** Names that start with a capital letter, each once: what the context block consists of. */
  ghost predicate IsContext(context: seq<Assign>) {
    && (forall a :: a in context ==> Capitalised(a.name) && NulFree(a.value))
    && forall i, k :: 0 <= i < k < |context| ==> context[i].name != context[k].name
  }

  /** Where the context lists a name: the names are distinct. */
  function Place(name: string): nat {
    match |name|
    case 3 => 13 case 5 => 12 case 7 => 4 case 8 => 7 case 9 => 8 case 13 => 10 case 14 => 14 case 15 => 11
    case 6 => if name[0] == 'B' then 0 else 3
    case 10 => if name[0] == 'R' then 2 else if name[0] == 'E' then 5 else if name[0] == 'O' then 9
      else if name[6] == 's' then 1 else 6
    case _ => 15
  }

  lemma Capital(name: string)
    requires name != "" && 'A' <= name[0] <= 'Z' && forall i :: 0 <= i < |name| ==> NameChar(name[i])
    ensures Capitalised(name)
  {
  }

  lemma NamesOfPaths()
    ensures Capitalised("BinDir") && Place("BinDir") == 0
    ensures Capitalised("ScriptsDir") && Place("ScriptsDir") == 1
    ensures Capitalised("ReleaseDir") && Place("ReleaseDir") == 2
    ensures Capitalised("EpisodeDir") && Place("EpisodeDir") == 5
  {
    hide Capitalised;
    Capital("BinDir");
    Capital("ScriptsDir");
    Capital("ReleaseDir");
    Capital("EpisodeDir");
  }

  lemma NamesOfFiles()
    ensures Capitalised("ScriptFile") && Place("ScriptFile") == 6
    ensures Capitalised("HevcFile") && Place("HevcFile") == 7
    ensures Capitalised("AudioFile") && Place("AudioFile") == 8
    ensures Capitalised("OutputName") && Place("OutputName") == 9
  {
    hide Capitalised;
    Capital("ScriptFile");
    Capital("HevcFile");
    Capital("AudioFile");
    Capital("OutputName");
  }

  lemma NamesOfJob()
    ensures Capitalised("Series") && Place("Series") == 3
    ensures Capitalised("Episode") && Place("Episode") == 4
    ensures Capitalised("ReleaseFolder") && Place("ReleaseFolder") == 10
    ensures Capitalised("Group") && Place("Group") == 12
    ensures Capitalised("Tag") && Place("Tag") == 13
  {
    hide Capitalised;
    Capital("Series");
    Capital("Episode");
    Capital("ReleaseFolder");
    Capital("Group");
    Capital("Tag");
  }

  lemma NamesOfDefaults()
    ensures Capitalised("DefaultX265Args") && Place("DefaultX265Args") == 11
    ensures Capitalised("DiscordWebhook") && Place("DiscordWebhook") == 14
  {
    hide Capitalised;
    Capital("DefaultX265Args");
    Capital("DiscordWebhook");
  }

  lemma ContextNames(series: string, episodeDir: string, v: Vars, episode: string, scriptName: string, x265: string,
      i: nat)
    requires i < 15
    ensures var context := Context(series, episodeDir, v, episode, scriptName, x265);
      |context| == 15 && Place(context[i].name) == i && Capitalised(context[i].name)
  {
    hide Place, Capitalised, OutputName, ReleaseFolder, TrimSlashes;
    NamesOfPaths();
    NamesOfFiles();
    NamesOfJob();
    NamesOfDefaults();
  }

  lemma PlacedIsContext(context: seq<Assign>)
    requires forall i :: 0 <= i < |context| ==> Place(context[i].name) == i && Capitalised(context[i].name)
    requires forall a :: a in context ==> NulFree(a.value)
    ensures IsContext(context)
  {
    hide NulFree, Place, Capitalised;
  }

  /** The job's context block is one: its names are distinct, valid and capitalised. */
  lemma ContextIsContext(series: string, episodeDir: string, v: Vars, episode: string, scriptName: string, x265: string)
    requires forall a :: a in Context(series, episodeDir, v, episode, scriptName, x265) ==> NulFree(a.value)
    ensures IsContext(Context(series, episodeDir, v, episode, scriptName, x265))
  {
    hide NulFree, Place, Capitalised, Context, IsContext;
    var context := Context(series, episodeDir, v, episode, scriptName, x265);
    ContextNames(series, episodeDir, v, episode, scriptName, x265, 0);
    forall i | 0 <= i < |context| ensures Place(context[i].name) == i && Capitalised(context[i].name) {
      ContextNames(series, episodeDir, v, episode, scriptName, x265, i);
    }
    PlacedIsContext(context);
  }

  lemma UntitledReads(context: seq<Assign>)
    requires Printable(context) && forall a :: a in context ==> ValidName(a.name)
    ensures Read(Print("", context) + "\n") == Some(context)
  {
    assert Scan("\n", Bare, None, [], WordsOf(context)) == Some(WordsOf(context)) by {
      assert ("\n")[1..] == "";
    }
    hide Scan, Print, WordsOf, AsBlock, Printable, ValidName;
    ScanBlock("", context, "\n", []);
    assert [] + WordsOf(context) == WordsOf(context);
    BlockReadsBack(context);
  }

  lemma TitledReads(title: string, context: seq<Assign>)
    requires IsContext(context) && '\n' !in title
    ensures Read("#" + title + "\n" + Print("", context) + "\n") == Some(context)
  {
    UntitledReads(context);
    hide Lex, Print, IsContext, AsBlock;
    CommentLine(title, Print("", context) + "\n");
    assert "#" + title + "\n" + (Print("", context) + "\n") == "#" + title + "\n" + Print("", context) + "\n";
  }

  lemma ContextReads(context: seq<Assign>)
    requires IsContext(context)
    ensures Read(JobContext(context)) == Some(context)
  {
    assert '\n' !in TITLE;
    hide TITLE, Read, Print, IsContext;
    TitledReads(TITLE, context);
  }

  /** The context block gives every context variable its value. */
  lemma ContextPerforms(context: seq<Assign>, env: Variables)
    requires IsContext(context)
    ensures Perform(env, JobContext(context)) == Some(Run(env, context))
    ensures forall a :: a in context ==> a.name in Run(env, context) && Run(env, context)[a.name] == a.value
  {
    ContextReads(context);
    hide JobContext;
    forall k | 0 <= k < |context| ensures context[k].name in Run(env, context)
      && Run(env, context)[context[k].name] == context[k].value {
      assert context == context[..k] + [context[k]] + context[k + 1..];
      RunLast(env, context[..k], context[k], context[k + 1..]);
    }
  }

  datatype Step = Step(params: seq<string>, given: Given)

  function RunSteps(env: Variables, steps: seq<Step>): Variables
    decreases |steps|
  {
    if steps == [] then env else RunSteps(Run(env, Declared(steps[0].params, steps[0].given)), steps[1..])
  }

  /** No step's parameters change a job-context variable: sanitised keys have no capital letters. */
  lemma {:induction false} ContextStands(context: seq<Assign>, env: Variables, steps: seq<Step>)
    requires IsContext(context) && forall a :: a in context ==> a.name in env && env[a.name] == a.value
    ensures forall a :: a in context ==> a.name in RunSteps(env, steps) && RunSteps(env, steps)[a.name] == a.value
    decreases |steps|
  {
    hide Declared, Run, NulFree;
    if steps != [] {
      var block := Declared(steps[0].params, steps[0].given);
      forall a | a in context ensures a.name in Run(env, block) && Run(env, block)[a.name] == a.value {
        LowerOnly(steps[0].params, steps[0].given, a.name);
        RunKeeps(env, block, a.name);
      }
      ContextStands(context, Run(env, block), steps[1..]);
    }
  }

  lemma LowerOnly(params: seq<string>, given: Given, name: string)
    requires name != "" && 'A' <= name[0] <= 'Z'
    ensures !Sets(Declared(params, given), name)
  {
    DeclaredNames(params, given);
    assert name[0] in name && !Kept(name[0]);
    hide Safe, Declared;
    forall a | a in Declared(params, given) ensures a.name != name {
      var k :| 0 <= k < |params| && Own(params[k], given) == [a];
      SafeIsSafe(params[k]);
    }
  }
}

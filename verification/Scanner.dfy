/** How the scanner picks the source and the filter script of an episode folder, and when it waits. */
module Scanner {
  import opened Wrappers
  import opened Text

  /** A directory entry or bucket object; `time` is when it last changed, absent when not known. */
  datatype Entry = Entry(name: string, isDir: bool, time: Option<int>)

  datatype Candidate = Candidate(scriptType: string, script: string, source: string)

  // ---- kinds of files ----

  /** The suffix from the last dot on. */
  function Ext(name: string): string {
    if name == "" then "" else if name[|name| - 1] == '.' then "." else
      var e := Ext(name[..|name| - 1]);
      if e == "" then "" else e + [name[|name| - 1]]
  }

  predicate IsScript(name: string) {
    Lower(Ext(name)) == ".avs" || Lower(Ext(name)) == ".vpy"
  }

  predicate IsRaw(name: string) {
    Lower(Ext(name)) == ".m2ts" || Lower(Ext(name)) == ".ts" || Lower(Ext(name)) == ".mp4"
  }

  predicate IsMkv(name: string) {
    Lower(Ext(name)) == ".mkv"
  }

  /** The suffix starts at the last dot; without a dot there is none. */
  lemma {:induction false} ExtIs(name: string, k: nat)
    requires k <= |name| && '.' !in name[k..]
    ensures k == 0 ==> Ext(name) == ""
    ensures k > 0 && name[k - 1] == '.' ==> Ext(name) == name[k - 1..]
  {
    if k < |name| {
      var init := name[..|name| - 1];
      assert name[|name| - 1] == name[k..][|name| - 1 - k];
      assert name[k..] == init[k..] + [name[|name| - 1]];
      ExtIs(init, k);
      assert k > 0 && name[k - 1] == '.' ==> name[k - 1..] == init[k - 1..] + [name[|name| - 1]];
    } else if name != "" && name[k - 1] == '.' {
      assert name[k - 1..] == ".";
    }
  }

  /** The name ends in the suffix, in capital or small letters. */
  predicate EndsIn(name: string, suffix: string) {
    |suffix| <= |name| && Lower(name)[|name| - |suffix|..] == suffix
  }

  lemma LowerDot(c: char)
    ensures LowerChar(c) == '.' <==> c == '.'
  {
  }

  lemma {:induction false} ExtStarts(name: string)
    ensures Ext(name) != "" ==> |Ext(name)| <= |name| && Ext(name) == name[|name| - |Ext(name)|..]
    ensures Ext(name) != "" ==> Ext(name)[0] == '.'
    ensures Ext(name) != "" ==> '.' !in Ext(name)[1..]
    ensures Ext(name) == "" ==> '.' !in name
  {
    if name != "" && name[|name| - 1] != '.' {
      var init, last := name[..|name| - 1], name[|name| - 1];
      assert name == init + [last];
      ExtStarts(init);
      if Ext(init) != "" {
        assert Ext(name) == Ext(init) + [last] && Ext(name)[1..] == Ext(init)[1..] + [last];
      }
    }
  }

  /** The suffix of a name is a given one exactly when the name ends in it. */
  lemma ExtIff(name: string, suffix: string)
    requires suffix != "" && suffix[0] == '.' && '.' !in suffix[1..]
    ensures Lower(Ext(name)) == suffix <==> EndsIn(name, suffix)
  {
    ExtStarts(name);
    hide Ext;
    if EndsIn(name, suffix) {
      var k := |name| - |suffix|;
      assert forall i :: 0 <= i < |suffix| ==> LowerChar(name[k + i]) == Lower(name)[k..][i];
      LowerDot(name[k]);
      forall i | k + 1 <= i < |name| ensures name[i] != '.' {
        assert suffix[1..][i - k - 1] == suffix[i - k];
        LowerDot(name[i]);
      }
      ExtIs(name, k + 1);
      assert name[k..] == Ext(name);
    }
  }

  /** The kinds of files by the ends of their names. */
  lemma KindsAre(name: string)
    ensures IsScript(name) <==> EndsIn(name, ".avs") || EndsIn(name, ".vpy")
    ensures IsRaw(name) <==> EndsIn(name, ".m2ts") || EndsIn(name, ".ts") || EndsIn(name, ".mp4")
    ensures IsMkv(name) <==> EndsIn(name, ".mkv")
  {
    hide Ext, EndsIn;
    ExtIff(name, ".avs");
    ExtIff(name, ".vpy");
    ExtIff(name, ".m2ts");
    ExtIff(name, ".ts");
    ExtIff(name, ".mp4");
    ExtIff(name, ".mkv");
  }

  // ---- the script ----

  function Rank(name: string): nat {
    if HasPrefix(name, "2160.vpy") then 4
    else if HasPrefix(name, "2160.avs") then 3
    else if HasPrefix(name, "1080.vpy") then 2
    else if HasPrefix(name, "1080.avs") then 1
    else 0
  }

  /** The switch over one script name, given the script chosen so far. */
  function Pick(script: string, name: string): string {
    if HasPrefix(name, "2160.vpy") then name
    else if HasPrefix(name, "2160.avs") && !HasPrefix(script, "2160.vpy") then name
    else if HasPrefix(name, "1080.vpy") && !HasPrefix(script, "2160") then name
    else if HasPrefix(name, "1080.avs") && !HasPrefix(script, "2160") && !HasPrefix(script, "1080.vpy") then name
    else if script == "" then name
    else script
  }

  function Chosen(scripts: seq<string>): string {
    if scripts == [] then "" else Pick(Chosen(scripts[..|scripts| - 1]), scripts[|scripts| - 1])
  }

  /** No script of the list outranks the name. */
  predicate Best(name: string, scripts: seq<string>) {
    name in scripts && forall s :: s in scripts ==> Rank(s) <= Rank(name)
  }

  /** An unranked name that the switch takes for a 4K script. */
  predicate Misleading(name: string) {
    HasPrefix(name, "2160") && Rank(name) == 0
  }

  predicate HasRank(scripts: seq<string>, r: nat) {
    exists s :: s in scripts && Rank(s) == r
  }

  /** When the pick is not of maximal rank: a misleading name is listed first, and the best others are 1080 scripts. */
  predicate Misled(scripts: seq<string>) {
    scripts != [] && Misleading(scripts[0]) && !HasRank(scripts, 4) && !HasRank(scripts, 3)
        && (HasRank(scripts, 2) || HasRank(scripts, 1))
  }

  lemma Prefixes(name: string)
    ensures Rank(name) >= 3 ==> HasPrefix(name, "2160")
    ensures 1 <= Rank(name) <= 2 ==> !HasPrefix(name, "2160") && name[0] == '1'
    ensures HasPrefix(name, "2160") ==> name[0] == '2' && (Rank(name) >= 3 || Misleading(name))
    ensures HasPrefix(name, "2160.vpy") ==> Rank(name) == 4
    ensures HasPrefix(name, "1080.vpy") ==> Rank(name) == 2
  {
    if HasPrefix(name, "1080.vpy") {
      assert name[0] == '1';
    }
    if HasPrefix(name, "1080.avs") {
      assert name[0] == '1';
    }
    if HasPrefix(name, "2160") {
      assert name[0] == '2';
    }
    if HasPrefix(name, "2160.vpy") {
      assert name[..4] == "2160";
    }
    if HasPrefix(name, "2160.avs") {
      assert name[..4] == "2160";
    }
  }

  /** The switch, read off the ranks. */
  lemma PickByRank(script: string, name: string)
    ensures Pick(script, name) ==
            if Rank(name) == 4 || (Rank(name) == 3 && Rank(script) != 4)
              || (1 <= Rank(name) <= 2 && !HasPrefix(script, "2160") && (Rank(name) == 2 || Rank(script) != 2))
              || script == ""
            then name else script
  {
    Prefixes(name);
    Prefixes(script);
    PickPrefixes(name);
    PickPrefixes(script);
    hide HasPrefix;
  }

  lemma PickPrefixes(name: string)
    ensures HasPrefix(name, "2160.vpy") <==> Rank(name) == 4
    ensures HasPrefix(name, "2160.avs") <==> Rank(name) == 3
    ensures HasPrefix(name, "1080.vpy") <==> Rank(name) == 2
    ensures HasPrefix(name, "1080.avs") <==> Rank(name) == 1
  {
    OnePrefix(name, "2160.vpy", "2160.avs", 5);
    OnePrefix(name, "2160.vpy", "1080.vpy", 0);
    OnePrefix(name, "2160.vpy", "1080.avs", 0);
    OnePrefix(name, "2160.avs", "1080.vpy", 0);
    OnePrefix(name, "2160.avs", "1080.avs", 0);
    OnePrefix(name, "1080.vpy", "1080.avs", 5);
    hide HasPrefix;
  }

  lemma OnePrefix(name: string, a: string, b: string, k: nat)
    requires k < |a| && k < |b| && a[k] != b[k]
    ensures !(HasPrefix(name, a) && HasPrefix(name, b))
  {
    if HasPrefix(name, a) {
      assert name[k] == a[k];
    }
    if HasPrefix(name, b) {
      assert name[k] == b[k];
    }
  }

  /**
   The first name stays while it is misleading and nothing of rank 3 or 4 comes; otherwise the pick
   is the best so far.
   */
  predicate Stuck(scripts: seq<string>) {
    scripts != [] && Misleading(scripts[0]) && !HasRank(scripts, 4) && !HasRank(scripts, 3)
  }

  lemma HasRankNext(scripts: seq<string>, name: string, r: nat)
    ensures HasRank(scripts + [name], r) <==> HasRank(scripts, r) || Rank(name) == r
  {
    if HasRank(scripts, r) {
      var s :| s in scripts && Rank(s) == r;
      assert s in scripts + [name];
    }
    assert name in scripts + [name];
  }

  ghost predicate IsPick(c: string, scripts: seq<string>) {
    if Stuck(scripts) then c == scripts[0] else Best(c, scripts) && !Misleading(c)
  }

  lemma {:induction false} ChosenIs(scripts: seq<string>)
    requires scripts != [] && forall s :: s in scripts ==> s != ""
    ensures IsPick(Chosen(scripts), scripts)
  {
    var before, name := scripts[..|scripts| - 1], scripts[|scripts| - 1];
    assert scripts == before + [name] && Chosen(scripts) == Pick(Chosen(before), name);
    if before == [] {
      ChosenNone();
      FirstPick(name);
    } else {
      hide IsPick, Chosen, Pick, HasPrefix;
      assert forall s :: s in before ==> s in scripts;
      assert name in scripts;
      ChosenIs(before);
      PickIn(Chosen(before), before);
      NextPick(before, name, Chosen(before));
    }
  }

  lemma PickIn(c: string, scripts: seq<string>)
    requires scripts != [] && IsPick(c, scripts)
    ensures c in scripts
  {
    hide Misleading, HasRank, Rank;
  }

  lemma FirstPick(name: string)
    ensures IsPick(Pick("", name), [name])
  {
    PickByRank("", name);
    hide Pick, Rank, HasPrefix;
    if Misleading(name) {
      assert [name][0] == name;
    }
  }

  lemma NextPick(before: seq<string>, name: string, c: string)
    requires before != [] && c != "" && name != "" && IsPick(c, before)
    ensures IsPick(Pick(c, name), before + [name])
  {
    PickByRank(c, name);
    Prefixes(name);
    Prefixes(c);
    HasRankNext(before, name, 4);
    HasRankNext(before, name, 3);
    hide Rank, HasPrefix, Pick, HasRank;
    NextBest(before, name, c);
  }

  lemma NextBest(before: seq<string>, name: string, c: string)
    requires before != [] && (Stuck(before) || Best(c, before))
    ensures Best(c, before) && Rank(name) <= Rank(c) ==> Best(c, before + [name])
    ensures Best(c, before) && Rank(c) <= Rank(name) ==> Best(name, before + [name])
    ensures Stuck(before) && Rank(name) >= 3 ==> Best(name, before + [name])
  {
    if Stuck(before) {
      hide Misleading;
      assert forall s :: s in before ==> Rank(s) != 3 && Rank(s) != 4;
      RankBound();
    }
    hide Rank;
  }

  lemma RankBound()
    ensures forall s :: Rank(s) <= 4
  {
    hide HasPrefix;
  }

  /** The one-pass switch returns a script of maximal rank if and only if it is not misled. */
  lemma BestIffNotMisled(scripts: seq<string>)
    requires scripts != [] && forall s :: s in scripts ==> s != ""
    ensures Best(Chosen(scripts), scripts) <==> !Misled(scripts)
  {
    ChosenIs(scripts);
    RankBound();
    hide Rank, Chosen, HasPrefix;
    if Stuck(scripts) && !Misled(scripts) {
      assert forall s :: s in scripts ==> Rank(s) == 0;
    }
  }

  // ---- sorted listings ----

  /** While no name is ranked, the first one stays. */
  lemma {:induction false} FirstStays(scripts: seq<string>)
    requires scripts != [] && forall s :: s in scripts ==> s != "" && Rank(s) == 0
    ensures Chosen(scripts) == scripts[0]
  {
    var before, name := scripts[..|scripts| - 1], scripts[|scripts| - 1];
    PickByRank(Chosen(before), name);
    hide Rank, HasPrefix, Pick;
    assert name in scripts && forall s :: s in before ==> s in scripts;
    if before == [] {
      ChosenNone();
    } else {
      FirstStays(before);
      assert scripts[0] in scripts;
    }
  }

  predicate Listed(scripts: seq<string>, prefix: string) {
    exists s :: s in scripts && HasPrefix(s, prefix)
  }

  /**
   The order of preference, by prefixes: a 2160.vpy script, else a 2160.avs one; and unless the first
   name misleads, else a 1080.vpy script, else a 1080.avs one.
   */
  lemma PreferenceOrder(scripts: seq<string>)
    requires scripts != [] && forall s :: s in scripts ==> s != ""
    ensures var c := Chosen(scripts);
            if Listed(scripts, "2160.vpy") then HasPrefix(c, "2160.vpy")
            else if Listed(scripts, "2160.avs") then HasPrefix(c, "2160.avs")
            else if HasPrefix(scripts[0], "2160") then c == scripts[0]
            else if Listed(scripts, "1080.vpy") then HasPrefix(c, "1080.vpy")
            else if Listed(scripts, "1080.avs") then HasPrefix(c, "1080.avs")
            else c == scripts[0]
  {
    ChosenIs(scripts);
    forall s ensures
        && (HasPrefix(s, "2160.vpy") <==> Rank(s) == 4) && (HasPrefix(s, "2160.avs") <==> Rank(s) == 3)
        && (HasPrefix(s, "1080.vpy") <==> Rank(s) == 2) && (HasPrefix(s, "1080.avs") <==> Rank(s) == 1) {
      PickPrefixes(s);
    }
    RankBound();
    hide Rank, HasPrefix, Chosen;
    if !Listed(scripts, "2160.vpy") && !Listed(scripts, "2160.avs") && !Listed(scripts, "1080.vpy")
      && !Listed(scripts, "1080.avs") {
      assert forall s :: s in scripts ==> Rank(s) == 0;
      FirstStays(scripts);
    }
    assert scripts[0] in scripts;
  }

  /** Byte order of names. */
  predicate AtMost(a: string, b: string) {
    a == "" || (b != "" && (a[0] < b[0] || (a[0] == b[0] && AtMost(a[1..], b[1..]))))
  }

  predicate Sorted(names: seq<string>) {
    forall i, k :: 0 <= i < k < |names| ==> AtMost(names[i], names[k])
  }

  /** On a name-sorted listing the pick is always of maximal rank: no 1080 script follows a 2160 name. */
  lemma SortedPicksBest(scripts: seq<string>)
    requires scripts != [] && Sorted(scripts) && forall s :: s in scripts ==> s != ""
    ensures Best(Chosen(scripts), scripts)
  {
    BestIffNotMisled(scripts);
    hide Chosen;
    Prefixes(scripts[0]);
    forall s | s in scripts && Misleading(scripts[0]) ensures !(1 <= Rank(s) <= 2) {
      Prefixes(s);
      NoneBefore(scripts, s);
    }
  }

  lemma NoneBefore(names: seq<string>, s: string)
    requires Sorted(names) && s in names && names[0] != "" && s != ""
    ensures names[0][0] <= s[0]
  {
    var k :| 0 <= k < |names| && names[k] == s;
    assert k > 0 ==> AtMost(names[0], names[k]);
  }

  /** Without the order it fails: a progressive 2160p script hides the 1080 one it precedes. */
  lemma UnsortedMisleads()
    ensures var scripts := ["2160p.avs", "1080.vpy"];
      Chosen(scripts) == "2160p.avs" && Rank("1080.vpy") == 2 && Rank("2160p.avs") == 0
  {
    var scripts := ["2160p.avs", "1080.vpy"];
    assert scripts[..1] == ["2160p.avs"] && ["2160p.avs"][..0] == [];
    NotPrefix("2160p.avs", "2160.vpy", 4);
    NotPrefix("2160p.avs", "2160.avs", 4);
    NotPrefix("2160p.avs", "1080.vpy", 0);
    NotPrefix("2160p.avs", "1080.avs", 0);
    NotPrefix("1080.vpy", "2160.vpy", 0);
    NotPrefix("1080.vpy", "2160.avs", 0);
    NotPrefix("1080.vpy", "1080.avs", 5);
    assert "2160p.avs"[..4] == "2160";
    assert HasPrefix("2160p.avs", "2160");
    hide HasPrefix;
  }

  lemma NotPrefix(name: string, prefix: string, k: nat)
    requires k < |prefix| && k < |name| && name[k] != prefix[k]
    ensures !HasPrefix(name, prefix)
  {
  }

  // ---- one episode folder ----

  datatype Outcome = Ready(candidate: Candidate) | NotReady | Unreadable

  /** The file names of filter scripts, in listing order. */
  function Scripts(entries: seq<Entry>): seq<string> {
    if entries == [] then []
    else
      var last := entries[|entries| - 1];
      Scripts(entries[..|entries| - 1]) + if !last.isDir && IsScript(last.name) then [last.name] else []
  }

  /** The first file of a kind, or the length. */
  function First(entries: seq<Entry>, kind: string -> bool): (k: nat)
    ensures k <= |entries|
    ensures k < |entries| ==> !entries[k].isDir && kind(entries[k].name)
    ensures forall i :: 0 <= i < k ==> entries[i].isDir || !kind(entries[i].name)
  {
    if entries == [] then 0
    else
      var k := First(entries[..|entries| - 1], kind);
      var last := entries[|entries| - 1];
      if k < |entries| - 1 || (!last.isDir && kind(last.name)) then k else |entries|
  }

  /** The first raw container, or else the first .mkv. */
  function Source(entries: seq<Entry>): (k: nat)
    ensures k <= |entries|
  {
    var raw := First(entries, IsRaw);
    if raw < |entries| then raw else First(entries, IsMkv)
  }

  function Named(entries: seq<Entry>, k: nat): string
    requires k <= |entries|
  {
    if k < |entries| then entries[k].name else ""
  }

  function Timed(entries: seq<Entry>, k: nat): Option<int>
    requires k <= |entries|
  {
    if k < |entries| then entries[k].time else None
  }

  predicate Complete(entries: seq<Entry>) {
    Source(entries) < |entries| && Scripts(entries) != []
  }

  predicate Fresh(time: Option<int>, now: int, minAge: int) {
    minAge > 0 && time.Some? && now - time.value < minAge
  }

  function TypeOf(script: string): string {
    var e := Ext(script);
    if HasPrefix(e, ".") then e[1..] else e
  }

  lemma NextFirst(entries: seq<Entry>, i: nat, kind: string -> bool)
    requires i < |entries|
    ensures var e := entries[i]; var k := First(entries[..i], kind);
            First(entries[..i + 1], kind) == if k < i then k else if !e.isDir && kind(e.name) then i else i + 1
  {
    assert entries[..i + 1][..i] == entries[..i];
  }

  lemma NextScript(entries: seq<Entry>, i: nat)
    requires i < |entries|
    ensures var e := entries[i];
            Scripts(entries[..i + 1]) == Scripts(entries[..i]) + if !e.isDir && IsScript(e.name) then [e.name] else []
  {
    assert entries[..i + 1][..i] == entries[..i];
  }

  lemma NextChosen(scripts: seq<string>, name: string)
    ensures Chosen(scripts + [name]) == Pick(Chosen(scripts), name)
  {
    assert (scripts + [name])[..|scripts|] == scripts;
  }

  /** An extension is not empty, so the empty string can stand for "none yet". */
  lemma KindsAreNamed(name: string)
    requires IsScript(name) || IsRaw(name) || IsMkv(name)
    ensures name != ""
  {
  }

  lemma KindsAreApart(name: string)
    ensures !(IsRaw(name) && IsMkv(name)) && !(IsScript(name) && (IsRaw(name) || IsMkv(name)))
  {
    assert |".m2ts"| == 5 && |".ts"| == 3 && ".mp4"[2] != ".mkv"[2] && ".avs"[1] != ".mp4"[1] && ".avs"[1] != ".mkv"[1]
      && ".vpy"[1] != ".mp4"[1] && ".vpy"[1] != ".mkv"[1];
  }

  /** The listing so far, as the loops keep it. */
  ghost predicate Scanned(entries: seq<Entry>, source: string, mkv: string, script: string) {
    && source == Named(entries, First(entries, IsRaw))
    && mkv == Named(entries, First(entries, IsMkv))
    && script == Chosen(Scripts(entries))
  }

  lemma NextScanned(entries: seq<Entry>, i: nat, source: string, mkv: string, script: string)
    requires i < |entries| && Scanned(entries[..i], source, mkv, script)
    ensures var e := entries[i];
            Scanned(entries[..i + 1],
              if !e.isDir && IsRaw(e.name) && source == "" then e.name else source,
              if !e.isDir && IsMkv(e.name) && mkv == "" then e.name else mkv,
              if !e.isDir && IsScript(e.name) then Pick(script, e.name) else script)
  {
    hide First, Scripts, Chosen, Pick, IsRaw, IsMkv, IsScript, Named;
    RawNamed(entries, i);
    MkvNamed(entries, i);
    ScriptNamed(entries, i);
  }

  lemma RawNamed(entries: seq<Entry>, i: nat)
    requires i < |entries|
    ensures var e, cur := entries[i], Named(entries[..i], First(entries[..i], IsRaw));
            Named(entries[..i + 1], First(entries[..i + 1], IsRaw)) == if !e.isDir && IsRaw(e.name) && cur == ""
                then e.name else cur
  {
    hide First, Named, IsRaw;
    forall n: string | IsRaw(n) ensures n != "" {
      KindsAreNamed(n);
    }
    NextNamed(entries, i, IsRaw);
  }

  lemma MkvNamed(entries: seq<Entry>, i: nat)
    requires i < |entries|
    ensures var e, cur := entries[i], Named(entries[..i], First(entries[..i], IsMkv));
            Named(entries[..i + 1], First(entries[..i + 1], IsMkv)) == if !e.isDir && IsMkv(e.name) && cur == ""
                then e.name else cur
  {
    hide First, Named, IsMkv;
    forall n: string | IsMkv(n) ensures n != "" {
      KindsAreNamed(n);
    }
    NextNamed(entries, i, IsMkv);
  }

  lemma ScriptNamed(entries: seq<Entry>, i: nat)
    requires i < |entries|
    ensures var e, cur := entries[i], Chosen(Scripts(entries[..i]));
            Chosen(Scripts(entries[..i + 1])) == if !e.isDir && IsScript(e.name) then Pick(cur, e.name) else cur
  {
    hide Scripts, Chosen, Pick, IsScript;
    NextScript(entries, i);
    NextChosen(Scripts(entries[..i]), entries[i].name);
    assert Scripts(entries[..i]) + [] == Scripts(entries[..i]);
  }

  lemma NextNamed(entries: seq<Entry>, i: nat, kind: string -> bool)
    requires i < |entries| && forall n :: kind(n) ==> n != ""
    ensures var e, cur := entries[i], Named(entries[..i], First(entries[..i], kind));
            Named(entries[..i + 1], First(entries[..i + 1], kind)) == if !e.isDir && kind(e.name) && cur == ""
                then e.name else cur
  {
    NextFirst(entries, i, kind);
    hide First;
  }

  /** What the loop leaves: the source, empty when there is none, and the script, empty when there is none. */
  lemma ScannedAll(entries: seq<Entry>, source: string, mkv: string, script: string)
    requires Scanned(entries, source, mkv, script)
    ensures (if source == "" then mkv else source) == Named(entries, Source(entries))
    ensures (if source == "" then mkv else source) == "" <==> Source(entries) == |entries|
    ensures script == "" <==> Scripts(entries) == []
  {
    var raw, m := First(entries, IsRaw), First(entries, IsMkv);
    if raw < |entries| {
      KindsAreNamed(entries[raw].name);
    }
    if m < |entries| {
      KindsAreNamed(entries[m].name);
    }
    ScriptsAreNamed(entries);
    hide First, Scripts, IsRaw, IsMkv, Chosen;
    if Scripts(entries) != [] {
      ChosenIs(Scripts(entries));
      assert Chosen(Scripts(entries)) in Scripts(entries);
    } else {
      ChosenNone();
    }
  }

  lemma ChosenNone()
    ensures Chosen([]) == ""
  {
  }

  lemma {:induction false} ScriptsAreNamed(entries: seq<Entry>)
    ensures forall s :: s in Scripts(entries) ==> s != ""
  {
    if entries != [] {
      ScriptsAreNamed(entries[..|entries| - 1]);
      if IsScript(entries[|entries| - 1].name) {
        KindsAreNamed(entries[|entries| - 1].name);
      }
      hide IsScript;
    }
  }

  function EpisodeOutcome(entries: seq<Entry>, statTime: string -> Option<int>, now: int, minAge: int): Outcome {
    if !Complete(entries) then NotReady
    else
      var source, script := entries[Source(entries)].name, Chosen(Scripts(entries));
      if minAge > 0 && statTime(source).None? then Unreadable
      else if Fresh(statTime(source), now, minAge) then NotReady
      else Ready(Candidate(TypeOf(script), script, source))
  }

  /**
   The filesystem scan of one folder. `statTime` is what examining the chosen source gives; the
   gate applies to the source that was chosen.
   */
  method InspectEpisode(entries: seq<Entry>, statTime: string -> Option<int>, now: int, minAge: int)
      returns (r: Outcome)
    ensures r == EpisodeOutcome(entries, statTime, now, minAge)
  {
    hide First, Scripts, Chosen, Pick, IsRaw, IsMkv, IsScript, Scanned, Source;
    var source, script, mkvFallback := "", "", "";
    ScannedNone(entries);
    for i := 0 to |entries|
      invariant Scanned(entries[..i], source, mkvFallback, script)
    {
      NextScanned(entries, i, source, mkvFallback, script);
      if entries[i].isDir {
        continue;
      }
      var name := entries[i].name;
      KindsAreApart(name);
      if IsRaw(name) && source == "" {
        source := name;
      } else if IsMkv(name) && mkvFallback == "" {
        mkvFallback := name;
      }
      if !IsScript(name) {
        continue;
      }
      script := Pick(script, name);
    }
    assert entries[..|entries|] == entries;
    ScannedAll(entries, source, mkvFallback, script);
    ScriptIs(entries, source, mkvFallback, script);
    if source == "" {
      source := mkvFallback;
    }
    if source == "" || script == "" {
      return NotReady;
    }
    if minAge > 0 {
      var time := statTime(source);
      if time.None? {
        return Unreadable;
      }
      if now - time.value < minAge {
        return NotReady;
      }
    }
    return Ready(Candidate(TypeOf(script), script, source));
  }

  lemma ScannedNone(entries: seq<Entry>)
    ensures Scanned(entries[..0], "", "", "")
  {
  }

  lemma ScriptIs(entries: seq<Entry>, source: string, mkv: string, script: string)
    requires Scanned(entries, source, mkv, script)
    ensures script == Chosen(Scripts(entries))
  {
  }

  /** A leftover output never passes for a source: an .mkv is taken only when there is no raw container. */
  lemma RawBeatsMkv(entries: seq<Entry>)
    requires Source(entries) < |entries|
    ensures IsRaw(entries[Source(entries)].name) || IsMkv(entries[Source(entries)].name)
    ensures (exists i :: 0 <= i < |entries| && !entries[i].isDir && IsRaw(entries[i].name)) <==>
      IsRaw(entries[Source(entries)].name)
    ensures forall i :: 0 <= i < Source(entries) && !entries[i].isDir ==>
      !IsRaw(entries[i].name) && (IsMkv(entries[i].name) ==> IsRaw(entries[Source(entries)].name))
  {
    KindsAreApart(entries[Source(entries)].name);
    hide IsRaw, IsMkv;
    if First(entries, IsRaw) == |entries| {
      assert forall i :: 0 <= i < |entries| ==> entries[i].isDir || !IsRaw(entries[i].name);
    }
  }

  predicate IsFile(entries: seq<Entry>, name: string) {
    exists e :: e in entries && e.name == name && !e.isDir
  }

  /** The scripts are exactly the files whose names end in a script's suffix; folders do not count. */
  lemma {:induction false} ScriptsAre(entries: seq<Entry>, name: string)
    ensures name in Scripts(entries) <==> IsFile(entries, name) && (EndsIn(name, ".avs") || EndsIn(name, ".vpy"))
  {
    KindsAre(name);
    hide IsScript, EndsIn;
    if entries != [] {
      var before, last := entries[..|entries| - 1], entries[|entries| - 1];
      assert entries == before + [last];
      ScriptsAre(before, name);
      assert IsFile(entries, name) <==> IsFile(before, name) || (last.name == name && !last.isDir) by {
        assert last in entries && forall e :: e in entries <==> e in before || e == last;
      }
    }
  }

  // ---- one episode of a bucket ----

  /** The object whose time the bucket scan judges: the later listed of the first raw container and the first .mkv. */
  function Judged(entries: seq<Entry>): (k: nat)
    ensures k <= |entries|
  {
    var raw, mkv := First(entries, IsRaw), First(entries, IsMkv);
    if raw < |entries| && mkv < |entries| then (if raw < mkv then mkv else raw) else if raw < |entries| then raw
      else mkv
  }

  function S3Type(script: string): string {
    if |script| >= 4 && Lower(script)[|script| - 4..] == ".vpy" then "vpy" else "avs"
  }

  function S3Outcome(entries: seq<Entry>, now: int, minAge: int): Outcome {
    if !Complete(entries) || Fresh(Timed(entries, Judged(entries)), now, minAge) then NotReady
    else Ready(Candidate(S3Type(Chosen(Scripts(entries))), Chosen(Scripts(entries)), entries[Source(entries)].name))
  }

  lemma NextJudged(entries: seq<Entry>, i: nat)
    requires i < |entries| && !entries[i].isDir
    ensures var e := entries[i]; var before := entries[..i];
            Timed(entries[..i + 1], Judged(entries[..i + 1])) ==
            if (IsRaw(e.name) && First(before, IsRaw) == i) || (IsMkv(e.name) && First(before, IsMkv) == i) then e.time
              else Timed(before, Judged(before))
  {
    NextFirst(entries, i, IsRaw);
    NextFirst(entries, i, IsMkv);
    KindsAreApart(entries[i].name);
    hide First, IsRaw, IsMkv;
  }

  lemma NamedNone(entries: seq<Entry>, i: nat, kind: string -> bool)
    requires i <= |entries| && forall n :: kind(n) ==> n != ""
    ensures Named(entries[..i], First(entries[..i], kind)) == "" <==> First(entries[..i], kind) == i
  {
    hide First;
  }

  lemma BothNone(entries: seq<Entry>, i: nat)
    requires i <= |entries|
    ensures Named(entries[..i], First(entries[..i], IsRaw)) == "" <==> First(entries[..i], IsRaw) == i
    ensures Named(entries[..i], First(entries[..i], IsMkv)) == "" <==> First(entries[..i], IsMkv) == i
  {
    hide First, Named, IsRaw, IsMkv, IsScript;
    forall n: string | IsRaw(n) || IsMkv(n) ensures n != "" {
      KindsAreNamed(n);
    }
    NamedNone(entries, i, IsRaw);
    NamedNone(entries, i, IsMkv);
  }

  method InspectS3Episode(entries: seq<Entry>, now: int, minAge: int) returns (r: Outcome)
    requires forall e :: e in entries ==> !e.isDir
    ensures r == S3Outcome(entries, now, minAge)
  {
    hide First, Scripts, Chosen, Pick, IsRaw, IsMkv, IsScript, Named, Source, Judged, S3Type, Timed;
    var source, script, mkvFallback := "", "", "";
    var sourceMtime: Option<int> := None;
    ScannedNone(entries);
    TimedNone(entries);
    for i := 0 to |entries|
      invariant Scanned(entries[..i], source, mkvFallback, script)
      invariant sourceMtime == Timed(entries[..i], Judged(entries[..i]))
    {
      assert entries[i] in entries;
      NextScanned(entries, i, source, mkvFallback, script);
      NextJudged(entries, i);
      BothNone(entries, i);
      var name := entries[i].name;
      KindsAreApart(name);
      if IsRaw(name) && source == "" {
        source := name;
        sourceMtime := entries[i].time;
      } else if IsMkv(name) && mkvFallback == "" {
        mkvFallback := name;
        sourceMtime := entries[i].time;
      }
      if !IsScript(name) {
        continue;
      }
      script := Pick(script, name);
    }
    assert entries[..|entries|] == entries;
    ScannedAll(entries, source, mkvFallback, script);
    if source == "" {
      source := mkvFallback;
    }
    if source == "" || script == "" {
      return NotReady;
    }
    SourceNamed(entries);
    if minAge > 0 && sourceMtime.Some? && now - sourceMtime.value < minAge {
      return NotReady;
    }
    return Ready(Candidate(S3Type(script), script, source));
  }

  lemma TimedNone(entries: seq<Entry>)
    ensures Timed(entries[..0], Judged(entries[..0])) == None
  {
  }

  lemma SourceNamed(entries: seq<Entry>)
    requires Source(entries) < |entries|
    ensures Named(entries, Source(entries)) == entries[Source(entries)].name
  {
  }

  /** What the bucket scan calls the type is what the filesystem scan calls it, in small letters: vpy or avs. */
  lemma TypesAgree(script: string)
    requires IsScript(script)
    ensures S3Type(script) == Lower(TypeOf(script))
    ensures S3Type(script) == if EndsIn(script, ".vpy") then "vpy" else "avs"
  {
    assert Ext(script) != "";
    ExtIff(script, ".avs");
    ExtIff(script, ".vpy");
    TypeIs(script);
    assert S3Type(script) == if EndsIn(script, ".vpy") then "vpy" else "avs";
    assert ".vpy"[1..] == "vpy" && ".avs"[1..] == "avs";
    hide Ext, EndsIn, S3Type, TypeOf, Lower;
  }

  lemma TypeIs(script: string)
    requires Ext(script) != ""
    ensures Lower(TypeOf(script)) == Lower(Ext(script))[1..]
  {
    ExtStarts(script);
    var e := Ext(script);
    hide Ext;
    assert "." <= e;
    assert Lower(e[1..]) == Lower(e)[1..];
  }

  /**
   The bucket scan judges the source it chose if and only if no first .mkv is listed after the first
   raw container.
   */
  lemma JudgesTheSourceIff(entries: seq<Entry>)
    requires Source(entries) < |entries|
    ensures Judged(entries) == Source(entries) <==> !(First(entries, IsRaw) < First(entries, IsMkv) < |entries|)
  {
    var raw := First(entries, IsRaw);
    if raw < |entries| {
      KindsAreApart(entries[raw].name);
    }
    hide First, IsRaw, IsMkv;
  }

  /** Otherwise a source that is still uploading is taken as soon as that .mkv is old enough. */
  lemma UploadingSourceIsTaken(entries: seq<Entry>, now: int, minAge: int)
    requires Complete(entries) && First(entries, IsRaw) < First(entries, IsMkv) < |entries|
    requires Fresh(entries[Source(entries)].time, now, minAge)
      && !Fresh(entries[First(entries, IsMkv)].time, now, minAge)
    ensures S3Outcome(entries, now, minAge).Ready?
      && S3Outcome(entries, now, minAge).candidate.source == entries[First(entries, IsRaw)].name
  {
    JudgesTheSourceIff(entries);
    hide First, IsRaw, IsMkv, Scripts, Chosen;
  }

  /** Where it judges the source, the bucket scan defers exactly what the filesystem scan defers. */
  lemma GatesAgree(entries: seq<Entry>, now: int, minAge: int)
    requires Complete(entries) && !(First(entries, IsRaw) < First(entries, IsMkv) < |entries|)
    ensures S3Outcome(entries, now, minAge).NotReady? <==> Fresh(entries[Source(entries)].time, now, minAge)
  {
    JudgesTheSourceIff(entries);
    hide First, IsRaw, IsMkv, Scripts, Chosen;
  }

  /**
   When an episode is taken: it has a source and a script, and a positive minimum age is reached by the
   time of the chosen source, or in a bucket by the time that is judged, where it is known.
   */
  lemma TakenIff(entries: seq<Entry>, statTime: string -> Option<int>, now: int, minAge: int)
    ensures EpisodeOutcome(entries, statTime, now, minAge).Ready? <==>
      && Source(entries) < |entries| && Scripts(entries) != []
      && (minAge <= 0 || match statTime(entries[Source(entries)].name)
          case None => false
          case Some(time) => time + minAge <= now)
    ensures S3Outcome(entries, now, minAge).Ready? <==>
      && Source(entries) < |entries| && Scripts(entries) != []
      && (minAge <= 0 || Judged(entries) == |entries| || match entries[Judged(entries)].time
          case None => true
          case Some(time) => time + minAge <= now)
  {
    hide Source, Scripts, Judged, Chosen, TypeOf, S3Type;
  }

  // ---- sorted directories and buckets ----

  function Names(entries: seq<Entry>): (names: seq<string>)
    ensures |names| == |entries|
    ensures forall i :: 0 <= i < |entries| ==> names[i] == entries[i].name
  {
    seq(|entries|, i requires 0 <= i < |entries| => entries[i].name)
  }

  lemma {:induction false} ScriptsAreListed(entries: seq<Entry>)
    ensures forall s :: s in Scripts(entries) ==> exists i :: 0 <= i < |entries| && entries[i].name == s
  {
    hide IsScript;
    if entries != [] {
      var before := entries[..|entries| - 1];
      ScriptsAreListed(before);
      forall s | s in Scripts(entries) ensures exists i :: 0 <= i < |entries| && entries[i].name == s {
        if s in Scripts(before) {
          var i :| 0 <= i < |before| && before[i].name == s;
          assert entries[i].name == s;
        } else {
          assert entries[|entries| - 1].name == s;
        }
      }
    }
  }

  /** The scripts of a name-sorted listing are name-sorted. */
  lemma {:induction false} ScriptsAreSorted(entries: seq<Entry>)
    requires Sorted(Names(entries))
    ensures Sorted(Scripts(entries))
  {
    hide IsScript, AtMost;
    if entries != [] {
      var before, last := entries[..|entries| - 1], entries[|entries| - 1];
      assert forall i :: 0 <= i < |before| ==> Names(before)[i] == Names(entries)[i];
      ScriptsAreSorted(before);
      ScriptsAreListed(before);
      forall s | s in Scripts(before) ensures AtMost(s, last.name) {
        var i :| 0 <= i < |before| && before[i].name == s;
        assert AtMost(Names(entries)[i], Names(entries)[|entries| - 1]);
      }
    }
  }

  /**
   The candidate of a name-sorted listing, of a directory or a bucket: its script is one of the
   folder's and no other outranks it, and its source is a raw container whenever there is one.
   */
  lemma SortedListingPicksBest(entries: seq<Entry>, statTime: string -> Option<int>, now: int, minAge: int, r: Outcome)
    requires Sorted(Names(entries)) && r.Ready?
    requires r == EpisodeOutcome(entries, statTime, now, minAge) || r == S3Outcome(entries, now, minAge)
    ensures Best(r.candidate.script, Scripts(entries))
    ensures (exists e :: e in entries && !e.isDir && IsRaw(e.name)) <==> IsRaw(r.candidate.source)
  {
    ScriptsAreSorted(entries);
    ScriptsAreNamed(entries);
    hide Scripts, Chosen, Sorted, IsRaw, IsMkv, TypeOf, S3Type;
    SortedPicksBest(Scripts(entries));
    RawBeatsMkv(entries);
    if e :| e in entries && !e.isDir && IsRaw(e.name) {
      var i :| 0 <= i < |entries| && entries[i] == e;
      assert IsRaw(entries[i].name);
    }
    assert IsRaw(r.candidate.source) ==> exists i :: 0 <= i < |entries| && !entries[i].isDir && IsRaw(entries[i].name);
  }
}

/**
 * A chat-group role: its configuration record, the path of its flow file,
 * the rule that picks the language of its executor, and the configuration
 * handed to the executor factory for it.
 */
module Roles {
  import opened Common

  /** A file-system path: whether it is absolute, and its components in order. */
  datatype Path = Path(absolute: bool, parts: seq<string>)

  /** `a / b`: an absolute right operand replaces the left one. */
  function Join(a: Path, b: Path): (p: Path)
    ensures b.absolute ==> p == b
    ensures !b.absolute ==> p.absolute == a.absolute && |p.parts| == |a.parts| + |b.parts| && p.parts[..|a.parts|] == a.parts && p.parts[|a.parts|..] == b.parts
  {
    if b.absolute then b else Path(a.absolute, a.parts + b.parts)
  }

  /** The final component of a path; empty for a path without components. */
  function Name(p: Path): (n: string)
    ensures p.parts != [] ==> n == p.parts[|p.parts| - 1]
    ensures p.parts == [] ==> n == ""
  {
    if p.parts == [] then "" else p.parts[|p.parts| - 1]
  }

  /** Index of the last occurrence of `c` in `s`, or -1 (Python's `str.rfind`). */
  function RFind(s: string, c: char): (i: int)
    ensures -1 <= i < |s|
    ensures i >= 0 ==> s[i] == c && forall j :: i < j < |s| ==> s[j] != c
    ensures i == -1 ==> forall j :: 0 <= j < |s| ==> s[j] != c
  {
    if |s| == 0 then -1
    else if s[|s| - 1] == c then |s| - 1
    else RFind(s[..|s| - 1], c)
  }

  /**
   * `PurePath.suffix` of a final component: from the last dot to the end,
   * provided the dot is neither the first nor the last character.
   */
  function Suffix(name: string): string {
    var i := RFind(name, '.');
    if 0 < i < |name| - 1 then name[i..] else ""
  }

  /** A non-empty suffix is a tail of the name that starts at its last dot. */
  lemma SuffixShape(name: string)
    ensures var r := Suffix(name);
      r != [] ==> 2 <= |r| < |name| && r == name[|name| - |r|..] && r[0] == '.' && forall j :: 1 <= j < |r| ==> r[j] != '.'
  {
  }

  function LowerChar(c: char): char {
    if 'A' <= c <= 'Z' then (c as int + 32) as char else c
  }

  /**
   * Lower-casing restricted to ASCII letters. For a comparison with ".dll"
   * this agrees with Python's `str.lower`: no other character lower-cases
   * to '.', 'd' or 'l'.
   */
  function LowerAscii(s: string): string {
    if s == [] then [] else [LowerChar(s[0])] + LowerAscii(s[1..])
  }

  lemma {:induction false} LowerAsciiAt(s: string)
    ensures |LowerAscii(s)| == |s| && forall i :: 0 <= i < |s| ==> LowerAscii(s)[i] == LowerChar(s[i])
  {
    if s != [] {
      LowerAsciiAt(s[1..]);
    }
  }

  predicate IsDll(p: Path) {
    LowerAscii(Suffix(Name(p))) == ".dll"
  }

  /** A ".dll" suffix, in any letter case, is exactly a final component ending in
      a dot and "dll" that does not start at that dot. */
  lemma DllSuffixCharacterization(name: string)
    ensures LowerAscii(Suffix(name)) == ".dll" <==>
      |name| >= 5 && name[|name| - 4] == '.' && LowerChar(name[|name| - 3]) == 'd'
      && LowerChar(name[|name| - 2]) == 'l' && LowerChar(name[|name| - 1]) == 'l'
  {
    var n := |name|;
    SuffixShape(name);
    LowerAsciiAt(Suffix(name));
    if |name| >= 5 && name[n - 4] == '.' && LowerChar(name[n - 3]) == 'd'
      && LowerChar(name[n - 2]) == 'l' && LowerChar(name[n - 1]) == 'l'
    {
      var i := RFind(name, '.');
      assert i == n - 4;
      assert Suffix(name) == name[n - 4..];
      assert LowerAscii(Suffix(name)) == ".dll";
    }
    if LowerAscii(Suffix(name)) == ".dll" {
      var s := Suffix(name);
      assert |s| == 4;
      assert s == name[n - 4..];
      assert LowerChar(s[0]) == '.' && LowerChar(s[1]) == 'd' && LowerChar(s[2]) == 'l' && LowerChar(s[3]) == 'l';
      assert s[0] == name[n - 4] && s[1] == name[n - 3] && s[2] == name[n - 2] && s[3] == name[n - 1];
    }
  }

  /** The configuration record of one role (`ChatGroupRole`). */
  datatype ChatGroupRole = ChatGroupRole(
    flowFile: Path,
    role: string,
    name: string,
    stopSignal: string,
    workingDir: Option<Path>,
    connections: Option<map<string, Value>>,
    inputsMapping: seq<(string, string)>)

  /** The flow file, joined to the working directory when one is set. */
  function FlowPath(r: ChatGroupRole): (p: Path)
    ensures r.workingDir.None? ==> p == r.flowFile
    ensures r.workingDir.Some? ==> p == Join(r.workingDir.value, r.flowFile)
  {
    if r.workingDir.Some? then Join(r.workingDir.value, r.flowFile) else r.flowFile
  }

  /** Joining a working directory never changes the name of a non-empty flow file,
      so the working directory cannot make a ".dll" role out of a YAML one. */
  lemma FlowPathKeepsName(r: ChatGroupRole)
    requires r.flowFile.parts != []
    ensures Name(FlowPath(r)) == Name(r.flowFile)
  {
    if r.workingDir.Some? && !r.flowFile.absolute {
      var wd := r.workingDir.value;
      var p := FlowPath(r);
      assert p.parts == wd.parts + r.flowFile.parts;
      assert p.parts[|p.parts| - 1] == r.flowFile.parts[|r.flowFile.parts| - 1];
    }
  }

  const LANGUAGE_KEY: string := "language"
  const PYTHON: Value := Text("python")
  const CSHARP: Value := Text("csharp")

  /** A parsed flow YAML, as the loader returns it for a path. */
  type YamlLoader = Path -> map<string, Value>

  /**
   * The executor language of a role: C# for a ".dll" flow file (any letter
   * case), otherwise the YAML's language entry, defaulting to Python.
   */
  function CheckLanguageFromYaml(r: ChatGroupRole, load: YamlLoader): Value {
    var flowFile := FlowPath(r);
    if IsDll(flowFile) then CSHARP
    else
      var flowDag := load(flowFile);
      if LANGUAGE_KEY in flowDag then flowDag[LANGUAGE_KEY] else PYTHON
  }

  /** The three outcomes of the language rule. */
  lemma LanguageRule(r: ChatGroupRole, load: YamlLoader)
    ensures IsDll(FlowPath(r)) ==> CheckLanguageFromYaml(r, load) == CSHARP
    ensures !IsDll(FlowPath(r)) && LANGUAGE_KEY in load(FlowPath(r)) ==>
      CheckLanguageFromYaml(r, load) == load(FlowPath(r))[LANGUAGE_KEY]
    ensures !IsDll(FlowPath(r)) && LANGUAGE_KEY !in load(FlowPath(r)) ==> CheckLanguageFromYaml(r, load) == PYTHON
  {
  }

  /** A ".dll" role never consults the YAML: any two loaders give the same language. */
  lemma DllIgnoresYaml(r: ChatGroupRole, load1: YamlLoader, load2: YamlLoader)
    requires IsDll(FlowPath(r))
    ensures CheckLanguageFromYaml(r, load1) == CheckLanguageFromYaml(r, load2) == CSHARP
  {
  }

  /** Otherwise only the YAML at the role's own flow path matters. */
  lemma LanguageReadsOnlyFlowPath(r: ChatGroupRole, load1: YamlLoader, load2: YamlLoader)
    requires load1(FlowPath(r)) == load2(FlowPath(r))
    ensures CheckLanguageFromYaml(r, load1) == CheckLanguageFromYaml(r, load2)
  {
  }

  /** Resolution of one role's input for a line: its inputs mapping applied
      to the line, then the flow's default values filled in. */
  type Resolver = (ChatGroupRole, map<string, Value>) -> map<string, Value>

  /** Each role's input for the line, in role order. */
  function ResolvedInputs(roles: seq<ChatGroupRole>, inputs: map<string, Value>, resolve: Resolver): seq<map<string, Value>> {
    seq(|roles|, i requires 0 <= i < |roles| => resolve(roles[i], inputs))
  }

  /** What the executor factory receives for one role. */
  datatype ProxyConfig = ProxyConfig(
    flowFile: Path,
    workingDir: Option<Path>,
    connections: Option<map<string, Value>>,
    language: Value)

  function ProxyFor(r: ChatGroupRole, load: YamlLoader): ProxyConfig {
    ProxyConfig(r.flowFile, r.workingDir, r.connections, CheckLanguageFromYaml(r, load))
  }

  /** One executor configuration per role, in role order. */
  method CreateExecutorProxies(roles: seq<ChatGroupRole>, load: YamlLoader) returns (proxies: seq<ProxyConfig>)
    ensures |proxies| == |roles|
    ensures forall i :: 0 <= i < |roles| ==> proxies[i] == ProxyFor(roles[i], load)
  {
    proxies := [];
    for i := 0 to |roles|
      invariant |proxies| == i
      invariant forall j :: 0 <= j < i ==> proxies[j] == ProxyFor(roles[j], load)
    {
      proxies := proxies + [ProxyFor(roles[i], load)];
    }
  }
}

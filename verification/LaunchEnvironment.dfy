/**
 * The environment of the helper: parsing what the login shell printed, and
 * cleaning it so that nothing can inject code or shadow the bundled Node.
 */
module LaunchEnvironment {
  import opened Values
  import opened StableSort
  import opened TextRecords

  const NUL: char := '\0'

  const COLON: char := ':'

  const SAFE_PATH: seq<string> := ["/usr/local/bin", "/opt/homebrew/bin", "/usr/bin", "/bin", "/usr/sbin", "/sbin"]

  const INJECTION: set<string> := {
    "NODE_OPTIONS", "NODE_PATH", "NODE_REPL_EXTERNAL_MODULE", "NODE_INSPECT_RESUME_ON_START", "NODE_CHANNEL_FD",
    "NODE_CHANNEL_SERIALIZATION_MODE", "ELECTRON_RUN_AS_NODE", "VSCODE_INSPECTOR_OPTIONS", "VSCODE_DEBUG_SETTINGS",
    "DYLD_INSERT_LIBRARIES", "DYLD_LIBRARY_PATH", "DYLD_FRAMEWORK_PATH", "LD_PRELOAD", "LD_LIBRARY_PATH",
    "QUARTERDECK_INSTALLATION_LOCK_FD", "QUARTERDECK_INSTALLATION_LOCK_PATH"
  }

  predicate IsLetter(c: char) {
    'A' <= c <= 'Z' || 'a' <= c <= 'z' || c == '_'
  }

  /** `^[A-Za-z_][A-Za-z0-9_]*$` */
  predicate IsName(name: string) {
    name != "" && IsLetter(name[0]) && forall c | c in name :: IsLetter(c) || '0' <= c <= '9'
  }

  // ---------------------------------------------------------------- parsing

  datatype Entry = Entry(name: string, value: string)

  function Format(e: Entry): string {
    e.name + "=" + e.value
  }

  function Formats(entries: seq<Entry>): (r: seq<string>)
    ensures |r| == |entries| && forall i | 0 <= i < |r| :: r[i] == Format(entries[i])
  {
    seq(|entries|, i requires 0 <= i < |entries| => Format(entries[i]))
  }

  ghost predicate Distinct(entries: seq<Entry>) {
    forall i, j | 0 <= i < j < |entries| :: entries[i].name != entries[j].name
  }

  /** What `env -0` can print: distinct valid names and values without NUL. */
  ghost predicate Printable(entries: seq<Entry>) {
    Distinct(entries) && forall e | e in entries :: IsName(e.name) && NUL !in e.value
  }

  function Printed(entries: seq<Entry>): string {
    Print(Formats(entries), NUL)
  }

  /** The first `=` ends the name. */
  lemma FormatSplits(e: Entry)
    requires IsName(e.name)
    ensures IndexOf(Format(e), '=') == |e.name|
  {
    var text := Format(e);
    assert forall j | 0 <= j < |e.name| :: text[j] == e.name[j] && e.name[j] in e.name;
    IndexFromIs(text, '=', 0, |e.name|);
  }

  lemma PrintedRecords(entries: seq<Entry>)
    requires Printable(entries)
    ensures Records(Printed(entries), NUL) == Formats(entries) && Residue(Printed(entries), NUL) == ""
  {
    forall frame | frame in Formats(entries)
      ensures NUL !in frame
    {
      var i :| 0 <= i < |entries| && frame == Format(entries[i]);
      assert entries[i] in entries;
      assert forall c | c in entries[i].name :: c != NUL;
    }
    FramesComeBack(Formats(entries), NUL);
  }

  /** A text is its records and its residue. */
  lemma {:induction false} TextIsItsRecords(text: string, c: char)
    ensures text == Print(Records(text, c), c) + Residue(text, c)
    decreases |text|
  {
    var i := IndexOf(text, c);
    IndexOfFinds(text, c);
    if i < |text| {
      var rest := text[i + 1..];
      TextIsItsRecords(rest, c);
      FirstOfRecords(text, c, i, rest);
      PrintFirst(text[..i], Records(rest, c), c);
      FourParts(text, i, c, Print(Records(rest, c), c), Residue(rest, c));
    }
  }

  lemma FourParts(text: string, i: nat, c: char, a: string, b: string)
    requires i < |text| && text[i] == c && text[i + 1..] == a + b
    ensures text == text[..i] + [c] + a + b
  {
    assert text == text[..i] + [c] + text[i + 1..];
  }

  lemma PrintFirst(frame: string, frames: seq<string>, c: char)
    ensures Print([frame] + frames, c) == frame + [c] + Print(frames, c)
  {
    assert ([frame] + frames)[1..] == frames;
  }

  /** The entry of a record, if it has a valid name that is not taken yet. */
  function EntryOf(record: string, names: set<string>): Option<Entry> {
    var separator := IndexOf(record, '=');
    if separator < 1 || separator == |record| then None
    else
      var name := record[..separator];
      if !IsName(name) || name in names then None else Some(Entry(name, record[separator + 1..]))
  }

  function Names(entries: seq<Entry>): set<string> {
    set e | e in entries :: e.name
  }

  lemma EntryOfFormat(e: Entry, names: set<string>)
    requires IsName(e.name) && e.name !in names
    ensures EntryOf(Format(e), names) == Some(e)
  {
    FormatSplits(e);
    assert Format(e)[..|e.name|] == e.name && Format(e)[|e.name| + 1..] == e.value;
  }

  lemma FormatOfEntry(record: string, names: set<string>)
    requires EntryOf(record, names).Some?
    ensures Format(EntryOf(record, names).value) == record
  {
    IndexOfFinds(record, '=');
  }

  /** Equal print, equal entries. */
  lemma PrintIsInjective(a: seq<Entry>, b: seq<Entry>)
    requires Printable(a) && Printable(b) && Formats(a) == Formats(b)
    ensures a == b
  {
    forall i | 0 <= i < |a|
      ensures a[i] == b[i]
    {
      assert a[i] in a && b[i] in b && Formats(a)[i] == Formats(b)[i];
      EntryOfFormat(a[i], {});
      EntryOfFormat(b[i], {});
    }
  }

  /** A record that cannot be read shows that no printable entries are behind the text. */
  lemma UnreadableText(text: string, entries: seq<Entry>, all: seq<Entry>)
    requires Printable(entries) && |entries| < |Records(text, NUL)|
             && Formats(entries) == Records(text, NUL)[..|entries|]
    requires EntryOf(Records(text, NUL)[|entries|], Names(entries)).None?
    ensures !(Printable(all) && Printed(all) == text)
  {
    if Printable(all) && Printed(all) == text {
      PrintedRecords(all);
      var n := |entries|;
      assert Formats(all[..n]) == Formats(entries);
      forall e | e in all[..n]
        ensures e in all
      {
      }
      PrintIsInjective(all[..n], entries);
      assert all[n] in all;
      EntryOfFormat(all[n], Names(entries));
    }
  }

  lemma ReadOneMore(entries: seq<Entry>, record: string)
    requires Printable(entries) && NUL !in record && EntryOf(record, Names(entries)).Some?
    ensures Printable(entries + [EntryOf(record, Names(entries)).value])
    ensures Formats(entries + [EntryOf(record, Names(entries)).value]) == Formats(entries) + [record]
  {
    FormatOfEntry(record, Names(entries));
  }

  /**
   * Reads exactly the texts that some non-empty list of distinct valid names with NUL-free
   * values prints to, and returns that list.
   */
  method ParseEnvironment(text: string) returns (r: Option<seq<Entry>>)
    ensures r.Some? ==> r.value != [] && Printable(r.value) && Printed(r.value) == text
    ensures r.None? ==> forall all :: Printable(all) && all != [] ==> Printed(all) != text
  {
    if text == "" || text[|text| - 1] != NUL {
      forall all | Printable(all) && all != []
        ensures Printed(all) != text
      {
        PrintEndsInSeparator(Formats(all), NUL);
      }
      return None;
    }
    TextIsItsRecords(text, NUL);
    NoSeparatorInside(text, NUL);
    EndLeavesNothing(text, NUL);
    var records := Records(text, NUL);
    var entries: seq<Entry> := [];
    var names: set<string> := {};
    for i := 0 to |records|
      invariant |entries| == i && Printable(entries) && Formats(entries) == records[..i] && names == Names(entries)
    {
      var entry := EntryOf(records[i], names);
      if entry.None? {
        forall all | Printable(all) && all != []
          ensures Printed(all) != text
        {
          UnreadableText(text, entries, all);
        }
        return None;
      }
      assert records[i] in records;
      ReadOneMore(entries, records[i]);
      assert Names(entries + [entry.value]) == names + {entry.value.name};
      entries := entries + [entry.value];
      names := names + {entry.value.name};
      assert records[..i + 1] == records[..i] + [records[i]];
    }
    assert records[..|records|] == records;
    return Some(entries);
  }

  lemma {:induction false} PrintEndsInSeparator(frames: seq<string>, c: char)
    requires frames != []
    ensures Print(frames, c) != "" && Print(frames, c)[|Print(frames, c)| - 1] == c
  {
    if |frames| > 1 {
      PrintEndsInSeparator(frames[1..], c);
    }
  }

  /** A text that ends in a separator has records and no residue. */
  lemma {:induction false} EndLeavesNothing(text: string, c: char)
    requires text != "" && text[|text| - 1] == c
    ensures Residue(text, c) == "" && Records(text, c) != []
    decreases |text|
  {
    IndexFromIsAtMost(text, c, 0, |text| - 1);
    var i := IndexOf(text, c);
    var rest := text[i + 1..];
    FirstOfRecords(text, c, i, rest);
    if rest != "" {
      EndLeavesNothing(rest, c);
    }
  }

  // ---------------------------------------------------------------- cleaning

  function Upper(name: string): (r: string)
    ensures |r| == |name|
    ensures forall i | 0 <= i < |name| ::
              r[i] as int == if 'a' <= name[i] <= 'z' then name[i] as int - 32 else name[i] as int
  {
    seq(|name|, i requires 0 <= i < |name| =>
      if 'a' <= name[i] <= 'z' then ('A' as int + (name[i] as int - 'a' as int)) as char else name[i])
  }

  predicate Passes(name: string, value: string) {
    IsName(name) && NUL !in value && Upper(name) !in INJECTION
  }

  predicate IsAbsolute(path: string) {
    path != "" && path[0] == '/'
  }

  predicate IsUsable(path: string) {
    IsAbsolute(path) && NUL !in path && '\r' !in path && '\n' !in path
  }

  function Usable(paths: seq<string>): (r: seq<string>)
    ensures forall p :: p in r <==> p in paths && IsUsable(p)
  {
    if paths == [] then []
    else
      var rest, last := Usable(paths[..|paths| - 1]), paths[|paths| - 1];
      if IsUsable(last) then rest + [last] else rest
  }

  /** `Array.from(new Set(list))`: the first occurrences, in order. */
  function FirstOccurrences(list: seq<string>): (r: seq<string>)
    ensures forall x :: x in r <==> x in list
    ensures NoDuplicates(r)
  {
    if list == [] then []
    else
      var rest, last := FirstOccurrences(list[..|list| - 1]), list[|list| - 1];
      if last in rest then rest else rest + [last]
  }

  function Split(text: string, c: char): seq<string> {
    Records(text, c) + [Residue(text, c)]
  }

  function Join(parts: seq<string>, c: char): string
    requires parts != []
  {
    Print(parts[..|parts| - 1], c) + parts[|parts| - 1]
  }

  /** The directories of the cleaned PATH. */
  function Directories(node: string, path: string, discovered: seq<string>): seq<string> {
    FirstOccurrences(Usable([node] + Split(path, COLON) + discovered + SAFE_PATH))
  }

  lemma SplitOfJoin(parts: seq<string>, c: char)
    requires parts != [] && forall p | p in parts :: c !in p
    ensures Split(Join(parts, c), c) == parts
  {
    var front, last := parts[..|parts| - 1], parts[|parts| - 1];
    FramesComeBack(front, c);
    ReadOn(Print(front, c), last, c);
    assert last in parts;
    NoRecords(last, c);
    assert "" + last == last;
    assert parts == front + [last];
  }

  lemma NoRecords(text: string, c: char)
    requires c !in text
    ensures Records(text, c) == [] && Residue(text, c) == text
  {
    IndexOfFinds(text, c);
  }

  /** The cleaned variables: nothing unnamed, cut short or able to inject code, and a rebuilt PATH. */
  function Filtered(env: map<string, string>): map<string, string> {
    map name | name in env && Passes(name, env[name]) :: env[name]
  }

  function PathOf(env: map<string, string>): string {
    if "PATH" in env then env["PATH"] else ""
  }

  function Cleaned(env: map<string, string>, node: string, discovered: seq<string>): map<string, string>
    requires IsUsable(node)
  {
    UsableStartsWith(node, Split(PathOf(Filtered(env)), COLON) + discovered + SAFE_PATH);
    Filtered(env)["PATH" := Join(Directories(node, PathOf(Filtered(env)), discovered), COLON)]
  }

  lemma {:induction false} UsableBoth(a: seq<string>, b: seq<string>)
    ensures Usable(a + b) == Usable(a) + Usable(b)
    decreases |b|
  {
    if b == [] {
      assert a + b == a;
    } else {
      assert (a + b)[..|a + b| - 1] == a + b[..|b| - 1];
      UsableBoth(a, b[..|b| - 1]);
    }
  }

  lemma {:induction false} UsableAll(a: seq<string>)
    requires forall p | p in a :: IsUsable(p)
    ensures Usable(a) == a
  {
    if a != [] {
      assert a == a[..|a| - 1] + [a[|a| - 1]];
      UsableAll(a[..|a| - 1]);
    }
  }

  /** What comes later never changes the earlier first occurrences. */
  lemma {:induction false} FirstOccurrencesPrefix(a: seq<string>, b: seq<string>)
    ensures FirstOccurrences(a) <= FirstOccurrences(a + b)
    decreases |b|
  {
    if b == [] {
      assert a + b == a;
    } else {
      assert (a + b)[..|a + b| - 1] == a + b[..|b| - 1];
      FirstOccurrencesPrefix(a, b[..|b| - 1]);
    }
  }

  lemma {:induction false} NothingNew(a: seq<string>, b: seq<string>)
    requires forall x | x in b :: x in a
    ensures FirstOccurrences(a + b) == FirstOccurrences(a)
    decreases |b|
  {
    if b == [] {
      assert a + b == a;
    } else {
      var last := b[|b| - 1];
      assert last in b;
      assert (a + b)[..|a + b| - 1] == a + b[..|b| - 1];
      NothingNew(a, b[..|b| - 1]);
    }
  }

  /** A repeat of the first element in front disappears. */
  lemma {:induction false} RepeatedFront(list: seq<string>)
    requires list != [] && NoDuplicates(list)
    ensures FirstOccurrences([list[0]] + list) == list
    decreases |list|
  {
    var n := |list| - 1;
    assert ([list[0]] + list)[..n + 1] == [list[0]] + list[..n];
    if n == 0 {
      assert [list[0]] + list[..0] == [list[0]];
      assert FirstOccurrences([list[0]]) == [list[0]] by { assert [list[0]][..0] == []; }
      assert list == [list[0]];
    } else {
      RepeatedFront(list[..n]);
      assert list == list[..n] + [list[n]];
    }
  }

  lemma UsableStartsWith(node: string, rest: seq<string>)
    requires IsUsable(node)
    ensures var r := FirstOccurrences(Usable([node] + rest)); r != [] && r[0] == node
  {
    UsableBoth([node], rest);
    UsableAll([node]);
    FirstOccurrencesPrefix([node], Usable(rest));
    assert FirstOccurrences([node]) == [node] by { assert [node][..0] == []; }
  }

  /** The PATH the helper gets: distinct absolute directories, the bundled Node's first, the safe ones included. */
  lemma DirectoriesAreSound(node: string, path: string, discovered: seq<string>)
    requires IsUsable(node)
    ensures var r := Directories(node, path, discovered);
            && r != [] && r[0] == node && NoDuplicates(r)
            && (forall p | p in r ::
                  IsUsable(p) && (p == node || p in Split(path, COLON) || p in discovered || p in SAFE_PATH))
            && (forall p | (p in Split(path, COLON) || p in discovered || p in SAFE_PATH) && IsUsable(p) :: p in r)
  {
    var rest := Split(path, COLON) + discovered + SAFE_PATH;
    assert [node] + Split(path, COLON) + discovered + SAFE_PATH == [node] + rest;
    UsableStartsWith(node, rest);
  }

  /** Exactly the absolute paths without a line break or a NUL are listed. */
  lemma ListedIff(node: string, path: string, discovered: seq<string>, p: string)
    requires IsUsable(node) && (p in Split(path, COLON) || p in discovered || p in SAFE_PATH)
    ensures p in Directories(node, path, discovered)
            <==> p != "" && p[0] == '/' && NUL !in p && '\r' !in p && '\n' !in p
  {
    DirectoriesAreSound(node, path, discovered);
  }

  /** In the order given: a usable directory listed before the first `given[j]` comes before it. */
  lemma DirectoriesKeepOrder(node: string, path: string, discovered: seq<string>, given: seq<string>, i: nat, j: nat)
    requires given == [node] + Split(path, COLON) + discovered + SAFE_PATH
    requires i < j < |given| && given[j] !in given[..j] && IsUsable(given[i]) && IsUsable(given[j])
    ensures var r := Directories(node, path, discovered);
            exists a, b | 0 <= a < b < |r| :: r[a] == given[i] && r[b] == given[j]
  {
    var before, r := FirstOccurrences(Usable(given[..j])), Directories(node, path, discovered);
    assert given == given[..j] + given[j..];
    UsableBoth(given[..j], given[j..]);
    FirstOccurrencesPrefix(Usable(given[..j]), Usable(given[j..]));
    assert given[..j][i] == given[i];
    var a :| 0 <= a < |before| && before[a] == given[i];
    assert given[j] in r;
    var b :| 0 <= b < |r| && r[b] == given[j];
    assert before <= r && given[j] !in before;
    assert forall k | 0 <= k < |before| :: r[k] == before[k] && before[k] in before;
  }

  lemma SafeIsColonFree()
    ensures forall p | p in SAFE_PATH :: COLON !in p && IsUsable(p)
  {
  }

  lemma DirectoriesAreColonFree(node: string, path: string, discovered: seq<string>)
    requires IsUsable(node) && COLON !in node && forall p | p in discovered :: COLON !in p
    ensures forall p | p in Directories(node, path, discovered) :: COLON !in p
  {
    DirectoriesAreSound(node, path, discovered);
    SafeIsColonFree();
    NoSeparatorInside(path, COLON);
  }

  /** With colon-free directories the PATH reads back as exactly the directories put into it. */
  lemma PathReadsBack(env: map<string, string>, node: string, discovered: seq<string>)
    requires IsUsable(node) && COLON !in node && forall p | p in discovered :: COLON !in p
    ensures Split(Cleaned(env, node, discovered)["PATH"], COLON) == Directories(node, PathOf(Filtered(env)), discovered)
  {
    var path := PathOf(Filtered(env));
    DirectoriesAreSound(node, path, discovered);
    DirectoriesAreColonFree(node, path, discovered);
    SplitOfJoin(Directories(node, path, discovered), COLON);
  }

  /** Building the directories again from themselves changes nothing. */
  lemma DirectoriesAreStable(node: string, path: string, discovered: seq<string>, again: string)
    requires IsUsable(node) && Split(again, COLON) == Directories(node, path, discovered)
    ensures Directories(node, again, discovered) == Directories(node, path, discovered)
  {
    var r, rest := Directories(node, path, discovered), discovered + SAFE_PATH;
    DirectoriesAreSound(node, path, discovered);
    SafeIsColonFree();
    assert [node] + Split(again, COLON) + discovered + SAFE_PATH == ([node] + r) + rest;
    UsableBoth([node] + r, rest);
    UsableAll([node] + r);
    forall p | p in Usable(rest)
      ensures p in [node] + r
    {
      assert p in discovered || p in SAFE_PATH;
    }
    NothingNew([node] + r, Usable(rest));
    RepeatedFront(r);
  }

  lemma PathPasses(value: string)
    requires NUL !in value
    ensures Passes("PATH", value)
  {
    assert |Upper("PATH")| == 4 && forall name | name in INJECTION :: |name| != 4;
  }

  lemma {:induction false} PrintIsFree(frames: seq<string>, c: char, d: char)
    requires c != d && forall f | f in frames :: d !in f
    ensures d !in Print(frames, c)
  {
    if frames != [] {
      PrintIsFree(frames[1..], c, d);
      assert frames[0] in frames;
    }
  }

  lemma JoinIsFree(parts: seq<string>)
    requires parts != [] && forall p | p in parts :: IsUsable(p)
    ensures NUL !in Join(parts, COLON)
  {
    var front := parts[..|parts| - 1];
    forall p | p in front
      ensures NUL !in p
    {
      assert p in parts;
    }
    PrintIsFree(front, COLON, NUL);
    assert parts[|parts| - 1] in parts;
  }

  /** Nothing able to inject code is left, and every value is one the child can be given. */
  lemma CleanedIsSafe(env: map<string, string>, node: string, discovered: seq<string>)
    requires IsUsable(node)
    ensures forall name | name in Cleaned(env, node, discovered) :: Passes(name, Cleaned(env, node, discovered)[name])
  {
    var path := PathOf(Filtered(env));
    DirectoriesAreSound(node, path, discovered);
    JoinIsFree(Directories(node, path, discovered));
    PathPasses(Join(Directories(node, path, discovered), COLON));
  }

  /**
   * Exactly what is kept besides PATH, each with its value: the variables with a name of letters,
   * digits and underscores that does not begin with a digit, with no NUL in the value, and that do
   * not in any case spell one of the injecting variables.
   */
  lemma CleanedKeeps(env: map<string, string>, node: string, discovered: seq<string>, name: string)
    requires IsUsable(node) && name != "PATH"
    ensures var cleaned := Cleaned(env, node, discovered);
            && (name in cleaned <==>
                  && name in env && NUL !in env[name]
                  && name != "" && !('0' <= name[0] <= '9')
                  && (forall c | c in name :: 'A' <= c <= 'Z' || 'a' <= c <= 'z' || '0' <= c <= '9' || c == '_')
                  && (forall bad | bad in INJECTION :: Upper(name) != bad))
            && (name in cleaned ==> cleaned[name] == env[name])
  {
    if name != "" {
      assert name[0] in name;
    }
  }

  /** So a harmless variable stays as it was. */
  lemma HomeIsKept(env: map<string, string>, node: string, discovered: seq<string>)
    requires IsUsable(node) && "HOME" in env && NUL !in env["HOME"]
    ensures var cleaned := Cleaned(env, node, discovered);
            "HOME" in cleaned && cleaned["HOME"] == env["HOME"]
  {
    HomePasses(env["HOME"]);
  }

  lemma HomePasses(value: string)
    requires NUL !in value
    ensures Passes("HOME", value)
  {
    assert |Upper("HOME")| == 4 && forall name | name in INJECTION :: |name| != 4;
  }

  /** Cleaning twice is cleaning once, for colon-free directories. */
  lemma CleaningIsIdempotent(env: map<string, string>, node: string, discovered: seq<string>)
    requires IsUsable(node) && COLON !in node && forall p | p in discovered :: COLON !in p
    ensures Cleaned(Cleaned(env, node, discovered), node, discovered) == Cleaned(env, node, discovered)
  {
    var once := Cleaned(env, node, discovered);
    CleanedIsSafe(env, node, discovered);
    assert Filtered(once) == once;
    PathReadsBack(env, node, discovered);
    DirectoriesAreStable(node, PathOf(Filtered(env)), discovered, once["PATH"]);
  }

  // ---------------------------------------------------------------- a colon in the Node directory

  /** Splitting a joined list whose first part alone may hold separators. */
  lemma SplitOfFirst(first: string, rest: seq<string>, c: char)
    requires forall p | p in rest :: c !in p
    ensures Split(Join([first] + rest, c), c) == Split(first, c) + rest
  {
    if rest == [] {
      assert ([first] + rest)[..0] == [] && "" + first == first;
    } else {
      JoinFirst(first, rest, c);
      SplitOfJoin(rest, c);
      SplitAtSeparator(first, Join(rest, c), c);
    }
  }

  lemma SplitAtSeparator(first: string, tail: string, c: char)
    ensures Split(first + [c] + tail, c) == Split(first, c) + Split(tail, c)
  {
    ReadOn(first, [c] + tail, c);
    NoSeparatorInside(first, c);
    FirstRecord(Residue(first, c), tail, c);
    assert first + ([c] + tail) == first + [c] + tail;
    assert Residue(first, c) + ([c] + tail) == Residue(first, c) + [c] + tail;
    ThreeParts(Records(first, c), [Residue(first, c)], Records(tail, c), [Residue(tail, c)]);
  }

  lemma ThreeParts<T>(a: seq<T>, b: seq<T>, c: seq<T>, d: seq<T>)
    ensures a + (b + c) + d == (a + b) + (c + d)
  {
  }

  lemma JoinFirst(first: string, rest: seq<string>, c: char)
    requires rest != []
    ensures Join([first] + rest, c) == first + [c] + Join(rest, c)
  {
    var front := rest[..|rest| - 1];
    assert ([first] + rest)[..|rest|] == [first] + front;
    PrintFirst(first, front, c);
  }

  /** A front that does not come again stays in front. */
  lemma {:induction false} FrontStays(x: string, list: seq<string>)
    requires x !in list
    ensures FirstOccurrences([x] + list) == [x] + FirstOccurrences(list)
  {
    var n := |list|;
    assert ([x] + list)[..n] == [x] + (if n == 0 then [] else list[..n - 1]) || n == 0;
    if n == 0 {
      assert [x] + list == [x] && [x][..0] == [];
    } else {
      FrontStays(x, list[..n - 1]);
      assert ([x] + list)[n] == list[n - 1];
    }
  }

  /** What is new and has no repeats is appended as it is. */
  lemma {:induction false} NewIsAppended(a: seq<string>, b: seq<string>)
    requires NoDuplicates(b) && forall x | x in b :: x !in a
    ensures FirstOccurrences(a + b) == FirstOccurrences(a) + b
  {
    if b == [] {
      assert a + b == a;
    } else {
      var n := |b| - 1;
      assert (a + b)[..|a| + n] == a + b[..n] && b == b[..n] + [b[n]];
      assert b[n] in b && b[n] !in b[..n];
      NewIsAppended(a, b[..n]);
    }
  }

  /** Further pieces in front leave a list without repeats as it is exactly if they are how it begins. */
  lemma PiecesInFront(pieces: seq<string>, r: seq<string>)
    requires NoDuplicates(r)
    ensures FirstOccurrences(pieces + r) == r <==> FirstOccurrences(pieces) <= r
  {
    var f := FirstOccurrences(pieces);
    FirstOccurrencesPrefix(pieces, r);
    if f <= r {
      assert r == f + r[|f|..];
      BeginningInFront(pieces, r[|f|..]);
    }
  }

  lemma BeginningInFront(pieces: seq<string>, t: seq<string>)
    requires NoDuplicates(FirstOccurrences(pieces) + t)
    ensures FirstOccurrences(pieces + (FirstOccurrences(pieces) + t)) == FirstOccurrences(pieces) + t
  {
    var f := FirstOccurrences(pieces);
    SplitDuplicates(f, t);
    assert pieces + (f + t) == (pieces + f) + t;
    NothingNew(pieces, f);
    NewIsAppended(pieces + f, t);
  }

  lemma SplitDuplicates<T>(a: seq<T>, b: seq<T>)
    requires NoDuplicates(a + b)
    ensures NoDuplicates(b) && forall x | x in b :: x !in a
  {
    var c := a + b;
    assert forall j | 0 <= j < |b| :: b[j] == c[|a| + j];
    assert forall i | 0 <= i < |a| :: a[i] == c[i];
  }

  lemma RestIsColonFree(node: string, path: string, discovered: seq<string>)
    requires IsUsable(node) && forall p | p in discovered :: COLON !in p
    ensures var r := Directories(node, path, discovered);
            r != [] && r[0] == node && NoDuplicates(r) && r == [node] + r[1..] && node !in r[1..]
    ensures forall p | p in Directories(node, path, discovered)[1..] :: COLON !in p
  {
    var r := Directories(node, path, discovered);
    DirectoriesAreSound(node, path, discovered);
    SafeIsColonFree();
    NoSeparatorInside(path, COLON);
    forall p | p in r[1..]
      ensures COLON !in p
    {
      assert p in r && p != node;
    }
  }

  /** Rebuilding a PATH behind the pieces of a Node directory with a colon. */
  lemma RebuiltDirectories(node: string, path: string, discovered: seq<string>, again: string)
    requires IsUsable(node) && COLON in node && forall p | p in discovered :: COLON !in p
    requires Split(again, COLON) == Split(node, COLON) + Directories(node, path, discovered)[1..]
    ensures Directories(node, again, discovered)
            == [node] + FirstOccurrences(Usable(Split(node, COLON)) + Directories(node, path, discovered)[1..])
  {
    var pieces, rest := Split(node, COLON), discovered + SAFE_PATH;
    var r := Directories(node, path, discovered)[1..];
    DirectoriesAreSound(node, path, discovered);
    RestIsColonFree(node, path, discovered);
    SafeIsColonFree();
    assert [node] + Split(again, COLON) + discovered + SAFE_PATH == [node] + (pieces + r) + rest;
    UsableBoth([node] + (pieces + r), rest);
    UsableBoth([node], pieces + r);
    UsableBoth(pieces, r);
    UsableAll([node]);
    UsableAll(r);
    var all := [node] + (Usable(pieces) + r);
    forall p | p in Usable(rest)
      ensures p in all
    {
      assert p in discovered || p in SAFE_PATH;
      assert p in [node] + r;
    }
    NothingNew(all, Usable(rest));
    NoSeparatorInside(node, COLON);
    assert node !in Usable(pieces) + r;
    FrontStays(node, Usable(pieces) + r);
  }

  /** Two PATHs behind the same Node directory are equal only if their directories are. */
  lemma JoinIsInjective(node: string, a: seq<string>, b: seq<string>)
    requires (forall p | p in a :: COLON !in p) && (forall p | p in b :: COLON !in p)
    ensures Join([node] + a, COLON) == Join([node] + b, COLON) <==> a == b
  {
    SplitOfFirst(node, a, COLON);
    SplitOfFirst(node, b, COLON);
    var pieces := Split(node, COLON);
    assert (pieces + a)[|pieces|..] == a && (pieces + b)[|pieces|..] == b;
  }

  /**
   * Exactly when cleaning twice is cleaning once, behind a Node directory with a colon: if its
   * usable pieces, without repeats, are how the PATH of the first cleaning goes on.
   */
  lemma ColonIdempotentIff(env: map<string, string>, node: string, discovered: seq<string>)
    requires IsUsable(node) && COLON in node && forall p | p in discovered :: COLON !in p
    ensures Cleaned(Cleaned(env, node, discovered), node, discovered) == Cleaned(env, node, discovered)
            <==> FirstOccurrences(Usable(Split(node, COLON)))
                 <= Directories(node, PathOf(Filtered(env)), discovered)[1..]
  {
    var once, path := Cleaned(env, node, discovered), PathOf(Filtered(env));
    var twice := Cleaned(once, node, discovered);
    var r, r' := Directories(node, path, discovered)[1..], Directories(node, once["PATH"], discovered)[1..];
    CleanedIsSafe(env, node, discovered);
    assert Filtered(once) == once;
    RestIsColonFree(node, path, discovered);
    RestIsColonFree(node, once["PATH"], discovered);
    SplitOfFirst(node, r, COLON);
    RebuiltDirectories(node, path, discovered, once["PATH"]);
    PiecesInFront(Usable(Split(node, COLON)), r);
    JoinIsInjective(node, r, r');
    SamePath(once, twice["PATH"]);
  }

  lemma SamePath(once: map<string, string>, path: string)
    requires "PATH" in once
    ensures once["PATH" := path] == once <==> path == once["PATH"]
  {
    assert once["PATH" := path]["PATH"] == path;
  }

  /** So a colon does no harm where PATH is the Node directory's text itself. */
  lemma ColonHarmlessInPath(env: map<string, string>, node: string, discovered: seq<string>)
    requires IsUsable(node) && COLON in node && forall p | p in discovered :: COLON !in p
    requires PathOf(Filtered(env)) == node
    ensures Cleaned(Cleaned(env, node, discovered), node, discovered) == Cleaned(env, node, discovered)
  {
    ColonIdempotentIff(env, node, discovered);
    OwnPiecesComeFirst(node, discovered);
  }

  lemma OwnPiecesComeFirst(node: string, discovered: seq<string>)
    requires IsUsable(node) && COLON in node
    ensures var r := Directories(node, node, discovered);
            r != [] && FirstOccurrences(Usable(Split(node, COLON))) <= r[1..]
  {
    var pieces, rest := Split(node, COLON), discovered + SAFE_PATH;
    NoSeparatorInside(node, COLON);
    PiecesComeFirst(node, pieces, rest);
    assert [node] + pieces + discovered + SAFE_PATH == [node] + pieces + rest;
    TailOfPrefix(node, FirstOccurrences(Usable(pieces)), Directories(node, node, discovered));
  }

  lemma TailOfPrefix<T>(x: T, a: seq<T>, r: seq<T>)
    requires [x] + a <= r
    ensures r != [] && a <= r[1..]
  {
    assert r == [x] + r[1..];
    assert forall i | 0 <= i < |a| :: a[i] == ([x] + a)[i + 1] && ([x] + a)[i + 1] == r[i + 1];
  }

  lemma PiecesComeFirst(node: string, pieces: seq<string>, rest: seq<string>)
    requires IsUsable(node) && node !in pieces
    ensures [node] + FirstOccurrences(Usable(pieces)) <= FirstOccurrences(Usable([node] + pieces + rest))
  {
    UsableBoth([node] + pieces, rest);
    UsableBoth([node], pieces);
    UsableAll([node]);
    FirstOccurrencesPrefix([node] + Usable(pieces), Usable(rest));
    FrontStays(node, Usable(pieces));
  }

  lemma NotAPrefix<T>(f: seq<T>, r: seq<T>, x: T)
    requires x in f && x !in r
    ensures !(f <= r)
  {
    var i :| 0 <= i < |f| && f[i] == x;
    assert i < |r| ==> r[i] in r;
  }

  /** And it does where PATH is empty: "/a" then joins the PATH in the second cleaning. */
  lemma ColonLeaksFromEmptyPath()
    ensures var node := "/a:/b";
            IsUsable(node) && Cleaned(Cleaned(map[], node, []), node, []) != Cleaned(map[], node, [])
  {
    var node, first := "/a:/b", "/a";
    assert node == first + [COLON] + "/b" && IsUsable(node) && IsUsable(first);
    assert first !in SAFE_PATH;
    NewPieceLeaks(node, first, "/b");
  }

  lemma NewPieceLeaks(node: string, first: string, second: string)
    requires IsUsable(node) && node == first + [COLON] + second
    requires IsUsable(first) && COLON !in first && first !in SAFE_PATH
    ensures Cleaned(Cleaned(map[], node, []), node, []) != Cleaned(map[], node, [])
  {
    assert node[|first|] == COLON && first != "";
    FirstRecord(first, second, COLON);
    assert first in Split(node, COLON);
    NoRecords("", COLON);
    assert first !in Split("", COLON);
    DirectoriesAreSound(node, "", []);
    var f, r := FirstOccurrences(Usable(Split(node, COLON))), Directories(node, "", [])[1..];
    assert first in f && first !in r;
    NotAPrefix(f, r, first);
    ColonIdempotentIff(map[], node, []);
  }

  /**
   * Whatever was discovered, the first piece of a Node directory with a colon joins the PATH
   * in the second cleaning, also where it was not on it before.
   */
  lemma ColonDirectoryLeaks(env: map<string, string>, first: string, second: string, discovered: seq<string>)
    requires var node := first + [COLON] + second;
             && COLON !in first && IsUsable(first) && IsUsable(node)
             && first !in Directories(node, PathOf(Filtered(env)), discovered)
    ensures var node := first + [COLON] + second;
            var once := Cleaned(env, node, discovered);
            first in Directories(node, PathOf(Filtered(once)), discovered)
  {
    var node := first + [COLON] + second;
    var once := Cleaned(env, node, discovered);
    var parts := Directories(node, PathOf(Filtered(env)), discovered);
    CleanedIsSafe(env, node, discovered);
    assert Filtered(once) == once;
    DirectoriesAreSound(node, PathOf(Filtered(env)), discovered);
    StartsWithFirst(parts, COLON);
    var rest := once["PATH"][|node|..];
    assert once["PATH"] == first + [COLON] + (second + rest);
    FirstRecord(first, second + rest, COLON);
    assert first in Split(once["PATH"], COLON);
    DirectoriesAreSound(node, once["PATH"], discovered);
  }

  lemma StartsWithFirst(parts: seq<string>, c: char)
    requires parts != []
    ensures parts[0] <= Join(parts, c)
  {
  }

  datatype Variable = Variable(name: string, value: Option<string>)

  function Bindings(variables: seq<Variable>): map<string, string> {
    if variables == [] then map[]
    else
      var rest, last := Bindings(variables[..|variables| - 1]), variables[|variables| - 1];
      if last.value.Some? && Passes(last.name, last.value.value) then rest[last.name := last.value.value] else rest
  }

  lemma {:induction false} BindingsPass(variables: seq<Variable>)
    ensures forall name | name in Bindings(variables) :: Passes(name, Bindings(variables)[name])
  {
    if variables != [] {
      BindingsPass(variables[..|variables| - 1]);
    }
  }

  /** The node path must be absolute and clean; its directory `node` then is too. */
  method SanitizeHelperEnvironment(variables: seq<Variable>, nodePath: string, node: string, discovered: seq<string>)
    returns (r: Option<map<string, string>>)
    requires IsUsable(nodePath) ==> IsUsable(node)
    ensures r.Some? <==> IsUsable(nodePath)
    ensures r.Some? ==> r.value == Cleaned(Bindings(variables), node, discovered)
  {
    if !IsUsable(nodePath) { return None; }
    var entries: map<string, string> := map[];
    for i := 0 to |variables|
      invariant entries == Bindings(variables[..i])
    {
      var v := variables[i];
      assert variables[..i + 1][..i] == variables[..i];
      if v.value.None? || !Passes(v.name, v.value.value) { continue; }
      entries := entries[v.name := v.value.value];
    }
    assert variables[..|variables|] == variables;
    BindingsPass(variables);
    assert Filtered(entries) == entries;
    var paths := [node] + Split(PathOf(entries), COLON) + discovered + SAFE_PATH;
    DirectoriesAreSound(node, PathOf(entries), discovered);
    return Some(entries["PATH" := Join(FirstOccurrences(Usable(paths)), COLON)]);
  }
}

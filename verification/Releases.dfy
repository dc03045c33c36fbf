// The release directories and the pointer file that names the active one.
module Releases {
  import opened Contracts
  import opened Options

  // ---------- revisions ----------

  // ^[A-Za-z0-9][A-Za-z0-9._-]{0,63}$, whose $ also matches before a final line feed, and no ".."
  predicate ValidRevision(revision: string) {
    && IsToken(if EndsInNewline(revision) then revision[..|revision| - 1] else revision, 64)
    && !exists i | 0 <= i < |revision| - 1 :: revision[i] == '.' && revision[i + 1] == '.'
  }

  // In characters: the name, a final line feed aside, is one path component of at most 64 letters,
  // digits, dots, underscores and hyphens, that begins with a letter or digit and climbs nowhere.
  lemma RevisionIsOneComponent(revision: string)
    ensures ValidRevision(revision) <==>
            var name := if EndsInNewline(revision) then revision[..|revision| - 1] else revision;
            && 1 <= |name| <= 64 && name[0] != '.' && name[0] != '_' && name[0] != '-'
            && (forall i :: 0 <= i < |name| ==>
                              || 'a' <= name[i] <= 'z' || 'A' <= name[i] <= 'Z' || '0' <= name[i] <= '9'
                              || name[i] == '.' || name[i] == '_' || name[i] == '-')
            && forall i :: 0 <= i < |name| - 1 ==> !(name[i] == '.' && name[i + 1] == '.')
  {
    var name := if EndsInNewline(revision) then revision[..|revision| - 1] else revision;
    assert forall c: char :: c in "_.-" <==> c == '_' || c == '.' || c == '-';
    forall i | 0 <= i < |revision| - 1 ensures name[i] == revision[i] {
    }
    if ValidRevision(revision) {
      forall i | 0 <= i < |name| - 1 ensures !(name[i] == '.' && name[i + 1] == '.') {
        assert !(revision[i] == '.' && revision[i + 1] == '.');
      }
    }
  }

  predicate EndsInNewline(s: string) {
    s != "" && s[|s| - 1] == '\n'
  }

  // What str.strip removes.
  predicate IsSpace(c: char) {
    || '\U{09}' <= c <= '\U{0D}' || '\U{1C}' <= c <= '\U{20}' || c == '\U{85}' || c == '\U{A0}' || c == '\U{1680}'
    || '\U{2000}' <= c <= '\U{200A}' || c == '\U{2028}' || c == '\U{2029}' || c == '\U{202F}' || c == '\U{205F}'
    || c == '\U{3000}'
  }

  function StripLeft(s: string): string {
    if s != "" && IsSpace(s[0]) then StripLeft(s[1..]) else s
  }

  function StripRight(s: string): string {
    if s != "" && IsSpace(s[|s| - 1]) then StripRight(s[..|s| - 1]) else s
  }

  function Strip(s: string): string {
    StripRight(StripLeft(s))
  }

  // The revision a pointer file names.
  function Current(pointer: Option<string>): Option<string> {
    if pointer == None || Strip(pointer.value) == "" then None else Some(Strip(pointer.value))
  }

  predicate Trimmed(s: string) {
    s != "" ==> !IsSpace(s[0]) && !IsSpace(s[|s| - 1])
  }

  lemma {:induction false} StripLeftTrims(s: string)
    ensures StripLeft(s) != "" ==> !IsSpace(StripLeft(s)[0])
  {
    if s != "" && IsSpace(s[0]) {
      StripLeftTrims(s[1..]);
    }
  }

  lemma {:induction false} StripRightTrims(s: string)
    requires s != "" ==> !IsSpace(s[0])
    ensures Trimmed(StripRight(s)) && (s != "" ==> StripRight(s) != "")
  {
    if s != "" && IsSpace(s[|s| - 1]) {
      StripRightTrims(s[..|s| - 1]);
    }
  }

  predicate Blank(s: string) {
    forall i :: 0 <= i < |s| ==> IsSpace(s[i])
  }

  lemma {:induction false} StripLeftTakes(s: string) returns (blank: string)
    ensures Blank(blank) && s == blank + StripLeft(s)
  {
    blank := "";
    if s != "" && IsSpace(s[0]) {
      var more := StripLeftTakes(s[1..]);
      blank := [s[0]] + more;
      assert s == [s[0]] + s[1..];
    }
  }

  lemma {:induction false} StripRightTakes(s: string) returns (blank: string)
    ensures Blank(blank) && s == StripRight(s) + blank
  {
    blank := "";
    if s != "" && IsSpace(s[|s| - 1]) {
      var more := StripRightTakes(s[..|s| - 1]);
      blank := more + [s[|s| - 1]];
      assert s == s[..|s| - 1] + [s[|s| - 1]];
    }
  }

  // Stripping takes off the blanks at both ends, and nothing else.
  lemma StripTakesBlanks(s: string) returns (left: string, right: string)
    ensures Blank(left) && Blank(right) && Trimmed(Strip(s)) && s == left + Strip(s) + right
  {
    left := StripLeftTakes(s);
    right := StripRightTakes(StripLeft(s));
    StripLeftTrims(s);
    StripRightTrims(StripLeft(s));
  }

  // Writing back the revision that was read names the same one.
  lemma CurrentReadsBack(pointer: Option<string>)
    ensures Current(pointer).Some? ==> Current(Current(pointer)) == Current(pointer)
  {
    if pointer.Some? {
      StripLeftTrims(pointer.value);
      StripRightTrims(StripLeft(pointer.value));
    }
  }

  // A pointer holding a valid revision names it, unless the revision ends in a line feed: that
  // one is accepted, but the pointer then names the revision without it.
  lemma RevisionReadsBack(revision: string)
    requires ValidRevision(revision)
    ensures Current(Some(revision)) == Some(revision) <==> !EndsInNewline(revision)
    ensures EndsInNewline(revision) ==> Current(Some(revision)) == Some(revision[..|revision| - 1])
  {
    var n := |revision| - 1;
    if EndsInNewline(revision) {
      assert revision[..n][0] == revision[0];
      assert StripRight(revision[..n]) == revision[..n];
      assert StripRight(revision) == StripRight(revision[..n]);
    }
  }

  lemma NewlineIsAccepted()
    ensures ValidRevision("v1\n") && Current(Some("v1\n")) == Some("v1")
  {
    assert "v1\n"[..2] == "v1";
    assert IsToken("v1", 64);
    RevisionReadsBack("v1\n");
  }

  // ---------- the layout ----------

  type Tree = map<string, string>

  datatype Error = FileNotFound | OsError | OtherError | InvalidRevision

  datatype Outcome = Done | Raised(error: Error) | Stopped

  // What the next file operation meets with.  An operation on a whole tree that fails or is
  // cut short leaves behind whatever it has done by then.
  datatype Fault =
    | NoFault
    | Raising(error: Error, left: Option<Tree>)
    | StopBefore
    | StopWithin(left: Option<Tree>)
    | StopAfter

  // The faults are met one operation at a time; past the end of the script all goes well.
  function At(faults: seq<Fault>, i: nat): Fault {
    if i < |faults| then faults[i] else NoFault
  }

  function From(faults: seq<Fault>, n: nat): seq<Fault> {
    if n <= |faults| then faults[n..] else []
  }

  lemma FromFrom(faults: seq<Fault>, n: nat, m: nat)
    ensures From(From(faults, n), m) == From(faults, n + m)
    ensures At(From(faults, n), m) == At(faults, n + m)
  {
  }

  ghost predicate Smooth(faults: seq<Fault>, n: nat) {
    forall i: nat :: i < n ==> At(faults, i) == NoFault
  }

  lemma SmoothParts(faults: seq<Fault>, n: nat, m: nat)
    ensures Smooth(faults, n + m) <==> Smooth(faults, n) && Smooth(From(faults, n), m)
    ensures From(From(faults, n), m) == From(faults, n + m)
  {
    if Smooth(faults, n) && Smooth(From(faults, n), m) {
      forall i: nat | i < n + m ensures At(faults, i) == NoFault {
        if i >= n {
          FromFrom(faults, n, i - n);
        }
      }
    }
    if Smooth(faults, n + m) {
      forall i: nat | i < m ensures At(From(faults, n), i) == NoFault {
        FromFrom(faults, n, i);
        assert At(faults, n + i) == NoFault;
      }
    }
  }

  lemma SmoothOne(faults: seq<Fault>)
    ensures Smooth(faults, 1) <==> At(faults, 0) == NoFault
  {
    assert Smooth(faults, 1) ==> At(faults, 0) == NoFault;
  }

  lemma OneThenSome(faults: seq<Fault>, n: nat)
    ensures Smooth(faults, 1 + n) <==> At(faults, 0) == NoFault && Smooth(From(faults, 1), n)
    ensures From(From(faults, 1), n) == From(faults, 1 + n)
  {
    SmoothParts(faults, 1, n);
    SmoothOne(faults);
  }

  // The faults that staging meets: preparing, clearing the staging directory, copying,
  // clearing the release, and renaming.
  lemma StageScript(faults: seq<Fault>, first: nat, second: nat)
    ensures Smooth(faults, 3 + first + second) <==>
            && At(faults, 0) == NoFault && Smooth(From(faults, 1), first)
            && At(From(From(faults, 1), first), 0) == NoFault && Smooth(From(From(From(faults, 1), first), 1), second)
            && At(From(From(From(From(faults, 1), first), 1), second), 0) == NoFault
    ensures From(From(From(From(From(faults, 1), first), 1), second), 1) == From(faults, 3 + first + second)
  {
    var rest := From(faults, 1 + first);
    SmoothParts(faults, 1 + first, 2 + second);
    OneThenSome(faults, first);
    SmoothParts(rest, 1 + second, 1);
    OneThenSome(rest, second);
    SmoothOne(From(rest, 1 + second));
  }

  // What an operation answers to its fault; only a check of a revision finds it invalid.
  function OutcomeOf(fault: Fault): Outcome {
    match fault
    case NoFault => Done
    case Raising(error, _) => Raised(if error == InvalidRevision then OtherError else error)
    case _ => Stopped
  }

  function Sooner(first: Outcome, second: Outcome): Outcome {
    if first != Done then first else second
  }

  // Whether activating a revision replaces the pointer file: two preparations must succeed,
  // and the process may stop no sooner than right after the replacement.
  predicate Switches(revision: string, releases: map<string, Tree>, faults: seq<Fault>) {
    && ValidRevision(revision) && revision in releases
    && At(faults, 0) == NoFault && At(faults, 1) == NoFault && At(faults, 2) in {NoFault, StopAfter}
  }

  // Whether deactivating leaves no pointer file.
  predicate Clears(faults: seq<Fault>) {
    At(faults, 0) in {NoFault, StopAfter} || (At(faults, 0).Raising? && At(faults, 0).error == FileNotFound)
  }

  function WithTree(releases: map<string, Tree>, name: string, tree: Option<Tree>): map<string, Tree> {
    if tree.Some? then releases[name := tree.value] else releases - {name}
  }

  // Directories of other names are as they were.
  ghost predicate OnlyTouches(before: map<string, Tree>, after: map<string, Tree>, names: set<string>) {
    forall name :: name !in names ==>
                     (name in before <==> name in after) && (name in before ==> after[name] == before[name])
  }

  function Staging(revision: string, processId: string): string {
    "." + revision + ".staging-" + processId
  }

  // How many operations staging a release takes.
  function Steps(revision: string, processId: string, releases: map<string, Tree>): nat {
    3 + (if Staging(revision, processId) in releases then 1 else 0) + (if revision in releases then 1 else 0)
  }

  class ReleaseLayout {
    const processId: string
    var releases: map<string, Tree>
    var pointer: Option<string>
    var faults: seq<Fault>

    constructor (processId: string, releases: map<string, Tree>, pointer: Option<string>, faults: seq<Fault>)
      ensures this.processId == processId && this.releases == releases && this.pointer == pointer
              && this.faults == faults
    {
      this.processId, this.releases, this.pointer, this.faults := processId, releases, pointer, faults;
    }

    function CurrentRevision(): Option<string>
      reads `pointer
    {
      Current(pointer)
    }

    function StagingName(revision: string): string {
      Staging(revision, processId)
    }

    function StageSteps(revision: string): nat
      reads `releases
    {
      Steps(revision, processId, releases)
    }

    method NextFault() returns (fault: Fault)
      modifies `faults
      ensures fault == At(old(faults), 0) && faults == From(old(faults), 1)
    {
      fault := if faults == [] then NoFault else faults[0];
      faults := if faults == [] then [] else faults[1..];
    }

    // An operation that changes nothing the layout shows, such as creating a parent directory.
    method Prepare() returns (outcome: Outcome)
      modifies `faults
      ensures outcome == OutcomeOf(At(old(faults), 0)) && faults == From(old(faults), 1)
    {
      var fault := NextFault();
      outcome := OutcomeOf(fault);
    }

    // Copying or removing a tree, file by file.
    method ChangeTree(name: string, goal: Option<Tree>) returns (outcome: Outcome)
      modifies `releases, `faults
      ensures OnlyTouches(old(releases), releases, {name})
      ensures outcome == Done ==> releases == WithTree(old(releases), name, goal)
      ensures outcome == OutcomeOf(At(old(faults), 0)) && faults == From(old(faults), 1)
    {
      var fault := NextFault();
      match fault {
        case NoFault | StopAfter => releases := WithTree(releases, name, goal);
        case Raising(_, left) => releases := WithTree(releases, name, left);
        case StopWithin(left) => releases := WithTree(releases, name, left);
        case StopBefore =>
      }
      outcome := OutcomeOf(fault);
    }

    // Renaming a tree is one step.
    method MoveTree(source: string, target: string) returns (outcome: Outcome)
      requires source in releases && source != target
      modifies `releases, `faults
      ensures OnlyTouches(old(releases), releases, {source, target})
      ensures outcome == Done ==> releases == old(releases)[target := old(releases)[source]] - {source}
      ensures outcome == OutcomeOf(At(old(faults), 0)) && faults == From(old(faults), 1)
    {
      var fault := NextFault();
      if fault == NoFault || fault == StopAfter {
        releases := releases[target := releases[source]] - {source};
      }
      outcome := OutcomeOf(fault);
    }

    // Removes a tree if there is one.
    method ClearTree(name: string) returns (outcome: Outcome)
      modifies `releases, `faults
      ensures OnlyTouches(old(releases), releases, {name})
      ensures outcome == Done ==> releases == old(releases) - {name}
      ensures outcome == Done <==> Smooth(old(faults), if name in old(releases) then 1 else 0)
      ensures faults == From(old(faults), if name in old(releases) then 1 else 0)
      ensures outcome != Raised(InvalidRevision)
    {
      outcome := Done;
      if name in releases {
        assert At(faults, 0) == At(faults, 0);
        outcome := ChangeTree(name, None);
      }
    }

    method CopyTree(staging: string, source: Option<Tree>) returns (outcome: Outcome)
      modifies `releases, `faults
      ensures OnlyTouches(old(releases), releases, {staging})
      ensures outcome == Done ==> source.Some? && staging in releases && releases[staging] == source.value
      ensures var cleared := From(From(old(faults), 1), if staging in old(releases) then 1 else 0);
              && (outcome == Done <==>
                  && At(old(faults), 0) == NoFault
                  && Smooth(From(old(faults), 1), if staging in old(releases) then 1 else 0)
                  && source.Some? && At(cleared, 0) == NoFault)
              && (outcome == Done ==> source.Some? && faults == From(cleared, 1))
      ensures outcome != Raised(InvalidRevision)
    {
      outcome := Prepare();
      if outcome != Done {
        return;
      }
      outcome := ClearTree(staging);
      if outcome != Done {
        return;
      }
      if source == None {
        return Raised(FileNotFound);
      }
      outcome := ChangeTree(staging, source);
    }

    // Copies into a staging directory of its own, which then takes the place of the release.
    method StageRelease(revision: string, source: Option<Tree>) returns (outcome: Outcome)
      modifies `releases, `faults
      ensures OnlyTouches(old(releases), releases, {revision, StagingName(revision)})
      ensures outcome == Done <==>
              ValidRevision(revision) && source.Some? && Smooth(old(faults), old(StageSteps(revision)))
      ensures outcome == Done ==>
                && faults == From(old(faults), old(StageSteps(revision)))
                && revision in releases && releases[revision] == source.value
      ensures outcome == Raised(InvalidRevision) <==> !ValidRevision(revision)
      ensures outcome == Raised(InvalidRevision) ==> releases == old(releases)
    {
      if !ValidRevision(revision) {
        return Raised(InvalidRevision);
      }
      var staging := StagingName(revision);
      StagingIsNoRevision(revision, processId);
      StageScript(faults, if staging in releases then 1 else 0, if revision in releases then 1 else 0);
      outcome := CopyTree(staging, source);
      if outcome != Done {
        return;
      }
      outcome := ClearTree(revision);
      if outcome != Done {
        return;
      }
      outcome := MoveTree(staging, revision);
    }

    // Points at a staged release by replacing the pointer file in one step.
    method Activate(revision: string) returns (outcome: Outcome)
      modifies `pointer, `faults
      ensures pointer == if Switches(revision, releases, old(faults)) then Some(revision) else old(pointer)
      ensures outcome == if !ValidRevision(revision) then Raised(InvalidRevision)
                         else if revision !in releases then Raised(FileNotFound)
                         else Sooner(OutcomeOf(At(old(faults), 0)),
                                     Sooner(OutcomeOf(At(old(faults), 1)), OutcomeOf(At(old(faults), 2))))
      ensures outcome == Done ==> faults == From(old(faults), 3)
    {
      if !ValidRevision(revision) {
        return Raised(InvalidRevision);
      }
      if revision !in releases {
        return Raised(FileNotFound);
      }
      FromFrom(faults, 1, 0);
      FromFrom(faults, 1, 1);
      FromFrom(faults, 2, 0);
      FromFrom(faults, 2, 1);
      outcome := Prepare();
      if outcome != Done {
        return;
      }
      outcome := Prepare();  // the temporary file
      if outcome != Done {
        return;
      }
      var fault := NextFault();
      if fault == NoFault || fault == StopAfter {
        pointer := Some(revision);
      }
      outcome := OutcomeOf(fault);
    }

    method Deactivate() returns (outcome: Outcome)
      modifies `pointer, `faults
      ensures pointer == if Clears(old(faults)) then None else old(pointer)
      ensures outcome == if Clears(old(faults)) && At(old(faults), 0) != StopAfter then Done
                         else OutcomeOf(At(old(faults), 0))
      ensures faults == From(old(faults), 1)
      // a pointer that is missing already is no failure; any other error leaves it
      ensures var fault := At(old(faults), 0);
              && (fault == NoFault || fault == StopAfter || (fault.Raising? && fault.error == FileNotFound) ==>
                    pointer == None)
              && (fault == NoFault || (fault.Raising? && fault.error == FileNotFound) ==> outcome == Done)
              && (fault.Raising? && fault.error != FileNotFound ==> pointer == old(pointer) && outcome.Raised?)
    {
      var fault := NextFault();
      if fault.Raising? && fault.error == FileNotFound {
        fault := NoFault;
      }
      if fault == NoFault || fault == StopAfter {
        pointer := None;
      }
      outcome := OutcomeOf(fault);
    }
  }

  // A staging directory is never taken for a release.
  lemma StagingIsNoRevision(revision: string, processId: string)
    ensures !ValidRevision(Staging(revision, processId)) && Staging(revision, processId) != revision
  {
  }
}

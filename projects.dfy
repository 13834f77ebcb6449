/**
 * The projects router: the project-name validator and the decisions the
 * create, delete and prompt routes make over the generations directory.
 */
module Projects {
  import opened Wrappers
  import PyStrings

  /** An `HTTPException`. */
  datatype HttpError = HttpError(status: nat, detail: string)

  // ---------------------------------------------------------------------
  // validate_project_name
  // ---------------------------------------------------------------------

  /** `[a-zA-Z0-9_-]`. */
  predicate IsNameChar(c: char) {
    ('a' <= c <= 'z') || ('A' <= c <= 'Z') || ('0' <= c <= '9') || c == '_' || c == '-'
  }

  const MaxNameLength: nat := 50

  const InvalidName := "Invalid project name. Use only letters, numbers, hyphens, and underscores (1-50 chars)."

  /** 1 to 50 name characters. */
  predicate NameLike(s: string) {
    1 <= |s| <= MaxNameLength && forall k :: 0 <= k < |s| ==> IsNameChar(s[k])
  }

  /** How many name characters, at most `limit`, start `s`: what the greedy repetition takes first. */
  function LeadingRun(s: string, limit: nat): (n: nat)
    ensures n <= limit && n <= |s|
    ensures forall k :: 0 <= k < n ==> IsNameChar(s[k])
    ensures n < limit && n < |s| ==> !IsNameChar(s[n])
  {
    if limit == 0 || s == [] || !IsNameChar(s[0]) then 0
    else 1 + LeadingRun(s[1..], limit - 1)
  }

  /** Python's `$`: at the end of the string, or just before a newline that ends it. */
  predicate DollarAt(s: string, p: nat) {
    p == |s| || (p + 1 == |s| && s[p] == '\n')
  }

  /**
   * `re.match(r'^[a-zA-Z0-9_-]{1,50}$', s)`: some repetition count the
   * greedy run allows, backtracking down to one, leaves `$` satisfied.
   */
  predicate MatchesNamePattern(s: string) {
    var m := LeadingRun(s, MaxNameLength);
    exists p | 1 <= p <= m :: DollarAt(s, p)
  }

  lemma MatchesNamePatternExactly(s: string)
    ensures MatchesNamePattern(s) <==>
              NameLike(s) || (|s| >= 1 && s[|s| - 1] == '\n' && NameLike(s[..|s| - 1]))
  {
    var m := LeadingRun(s, MaxNameLength);
    if MatchesNamePattern(s) {
      var p :| 1 <= p <= m && DollarAt(s, p);
      if p + 1 == |s| {
        assert forall k :: 0 <= k < |s| - 1 ==> s[..|s| - 1][k] == s[k];
      }
    }
    if NameLike(s) {
      assert DollarAt(s, m);
    } else if |s| >= 1 && s[|s| - 1] == '\n' && NameLike(s[..|s| - 1]) {
      assert forall k :: 0 <= k < |s| - 1 ==> IsNameChar(s[k]) by {
        forall k | 0 <= k < |s| - 1
          ensures IsNameChar(s[k])
        {
          assert s[k] == s[..|s| - 1][k];
        }
      }
      assert m == |s| - 1;
      assert DollarAt(s, m);
    }
  }

  /**
   * `validate_project_name`: a name matching the pattern comes back
   * unchanged; anything else is a 400. Because of Python's `$`, the names
   * accepted are 1 to 50 name characters, optionally followed by one
   * newline.
   */
  function ValidateProjectName(name: string): (r: Result<string, HttpError>)
    ensures r.Success? <==> NameLike(name) || (|name| >= 1 && name[|name| - 1] == '\n' && NameLike(name[..|name| - 1]))
    ensures r.Success? ==> r.value == name
    ensures r.Failure? ==> r.error == HttpError(400, InvalidName)
  {
    MatchesNamePatternExactly(name);
    if MatchesNamePattern(name) then Success(name) else Failure(HttpError(400, InvalidName))
  }

  /** An accepted name has no path separator and no dot, so it names a directory directly under generations/. */
  lemma AcceptedNamesStayInGenerations(name: string)
    requires ValidateProjectName(name).Success?
    ensures forall k :: 0 <= k < |name| ==> name[k] != '/' && name[k] != '\\' && name[k] != '.'
  {
    forall k | 0 <= k < |name|
      ensures name[k] != '/' && name[k] != '\\' && name[k] != '.'
    {
      if k < |name| - 1 || name[|name| - 1] != '\n' {
        if !NameLike(name) {
          assert name[k] == name[..|name| - 1][k];
        }
      }
    }
  }

  /** Validation is idempotent: what it returns validates to itself. */
  lemma ValidateIdempotent(name: string)
    requires ValidateProjectName(name).Success?
    ensures ValidateProjectName(ValidateProjectName(name).value) == ValidateProjectName(name)
  {
  }

  /** The trailing-newline caveat, on concrete names: "abc\n" passes, "abc\n\n" and "ab/c" do not. */
  lemma NewlineCaveat()
    ensures ValidateProjectName("abc\n") == Success("abc\n")
    ensures ValidateProjectName("abc\n\n").Failure?
    ensures ValidateProjectName("ab/c").Failure?
    ensures ValidateProjectName("").Failure?
  {
    assert "abc\n"[..3] == "abc";
    assert NameLike("abc");
    var twice := "abc\n\n";
    assert twice[..4] == "abc\n" && !IsNameChar(twice[3]);
    assert !IsNameChar("ab/c"[2]);
    assert "ab/c"[..3] == "ab/";
    assert !IsNameChar("ab/"[2]);
  }

  // ---------------------------------------------------------------------
  // The generations directory
  // ---------------------------------------------------------------------

  /** A prompt file, as reading it would go. */
  datatype PromptFile = Readable(text: string) | Unreadable

  /** A project directory: whether `.agent.lock` exists, and the prompt files by name. */
  datatype Project = Project(locked: bool, prompts: map<string, PromptFile>)

  datatype Stats = Stats(passing: int, total: int, percentage: real)

  datatype ProjectSummary = ProjectSummary(name: string, hasSpec: bool, stats: Stats)

  datatype Prompts = Prompts(appSpec: string, initializerPrompt: string, codingPrompt: string)

  datatype PromptsUpdate = PromptsUpdate(appSpec: Option<string>, initializerPrompt: Option<string>, codingPrompt: Option<string>)

  const AppSpecFile := "app_spec.txt"
  const InitializerFile := "initializer_prompt.md"
  const CodingFile := "coding_prompt.md"

  function NotFound(name: string): HttpError {
    HttpError(404, "Project '" + name + "' not found")
  }

  const AgentRunning := "Cannot delete project while agent is running. Stop the agent first."

  /**
   * `read_file` of the prompts route: the text as a text-mode read gives it
   * (`\r\n` and a lone `\r` read as `\n`) when the file exists and reads,
   * otherwise "".
   */
  function ReadPrompt(prompts: map<string, PromptFile>, file: string): (r: string)
    ensures file in prompts && prompts[file].Readable? ==> r == PyStrings.Newlines(prompts[file].text)
    ensures file !in prompts || prompts[file].Unreadable? ==> r == ""
    ensures '\r' !in r
  {
    if file in prompts && prompts[file].Readable? then PyStrings.Newlines(prompts[file].text) else ""
  }

  function ReadPrompts(prompts: map<string, PromptFile>): Prompts {
    Prompts(ReadPrompt(prompts, AppSpecFile), ReadPrompt(prompts, InitializerFile), ReadPrompt(prompts, CodingFile))
  }

  /** `write_file`: writes the text when one is given. */
  function WritePrompt(prompts: map<string, PromptFile>, file: string, content: Option<string>): map<string, PromptFile> {
    if content.Some? then prompts[file := Readable(content.value)] else prompts
  }

  /** The three writes of the update route, in order. */
  function ApplyUpdate(prompts: map<string, PromptFile>, u: PromptsUpdate): (r: map<string, PromptFile>)
    ensures forall f :: f != AppSpecFile && f != InitializerFile && f != CodingFile ==>
              (f in r <==> f in prompts) && (f in prompts ==> r[f] == prompts[f])
    ensures r.Keys == prompts.Keys
              + (if u.appSpec.Some? then {AppSpecFile} else {})
              + (if u.initializerPrompt.Some? then {InitializerFile} else {})
              + (if u.codingPrompt.Some? then {CodingFile} else {})
  {
    WritePrompt(WritePrompt(WritePrompt(prompts, AppSpecFile, u.appSpec), InitializerFile, u.initializerPrompt),
                CodingFile, u.codingPrompt)
  }

  /**
   * Reading the prompts after an update gives each text written as a
   * text-mode read gives it, and what was there before for each field left out.
   */
  lemma ReadAfterUpdate(prompts: map<string, PromptFile>, u: PromptsUpdate)
    ensures var after := ReadPrompts(ApplyUpdate(prompts, u));
            var before := ReadPrompts(prompts);
            && after.appSpec == (if u.appSpec.Some? then PyStrings.Newlines(u.appSpec.value) else before.appSpec)
            && after.initializerPrompt == (if u.initializerPrompt.Some? then PyStrings.Newlines(u.initializerPrompt.value) else before.initializerPrompt)
            && after.codingPrompt == (if u.codingPrompt.Some? then PyStrings.Newlines(u.codingPrompt.value) else before.codingPrompt)
  {
  }

  /** A written field without a carriage return reads back exactly as written. */
  lemma ReadAfterPlainUpdate(prompts: map<string, PromptFile>, u: PromptsUpdate)
    requires u.appSpec.Some? ==> '\r' !in u.appSpec.value
    requires u.initializerPrompt.Some? ==> '\r' !in u.initializerPrompt.value
    requires u.codingPrompt.Some? ==> '\r' !in u.codingPrompt.value
    ensures var after := ReadPrompts(ApplyUpdate(prompts, u));
            && (u.appSpec.Some? ==> after.appSpec == u.appSpec.value)
            && (u.initializerPrompt.Some? ==> after.initializerPrompt == u.initializerPrompt.value)
            && (u.codingPrompt.Some? ==> after.codingPrompt == u.codingPrompt.value)
  {
    ReadAfterUpdate(prompts, u);
    if u.appSpec.Some? {
      PyStrings.NewlinesWithoutCR(u.appSpec.value);
    }
    if u.initializerPrompt.Some? {
      PyStrings.NewlinesWithoutCR(u.initializerPrompt.value);
    }
    if u.codingPrompt.Some? {
      PyStrings.NewlinesWithoutCR(u.codingPrompt.value);
    }
  }

  /** A `\r\n` written by the update route reads back as `\n`. */
  lemma CrLfReadsAsLf(prompts: map<string, PromptFile>)
    ensures ReadPrompts(ApplyUpdate(prompts, PromptsUpdate(Some("a\r\nb"), None, None))).appSpec == "a\nb"
  {
    ReadAfterUpdate(prompts, PromptsUpdate(Some("a\r\nb"), None, None));
    assert PyStrings.Newlines("b") == "b";
    assert PyStrings.Newlines("\r\nb") == "\nb";
    assert PyStrings.Newlines("a\r\nb") == "a\nb";
  }

  /** An update with every field left out changes nothing. */
  lemma EmptyUpdateChangesNothing(prompts: map<string, PromptFile>)
    ensures ApplyUpdate(prompts, PromptsUpdate(None, None, None)) == prompts
  {
  }

  /** The generations directory: its project directories by name. */
  class ProjectStore {
    var projects: map<string, Project>

    constructor(projects: map<string, Project>)
      ensures this.projects == projects
    {
      this.projects := projects;
    }

    /**
     * `create_project`: 400 for an invalid name, 409 when it exists (and
     * nothing is scaffolded); otherwise the directory is made with the
     * scaffolded prompts, and the summary reports no spec and empty stats.
     */
    method CreateProject(name: string, scaffold: map<string, PromptFile>) returns (r: Result<ProjectSummary, HttpError>)
      modifies this
      ensures ValidateProjectName(name).Failure? ==> r == Failure(ValidateProjectName(name).error) && projects == old(projects)
      ensures ValidateProjectName(name).Success? && name in old(projects) ==>
                r == Failure(HttpError(409, "Project '" + name + "' already exists")) && projects == old(projects)
      ensures ValidateProjectName(name).Success? && name !in old(projects) ==>
                && r == Success(ProjectSummary(name, false, Stats(0, 0, 0.0)))
                && projects == old(projects)[name := Project(false, scaffold)]
    {
      var valid := ValidateProjectName(name);
      if valid.Failure? {
        return Failure(valid.error);
      }
      if name in projects {
        return Failure(HttpError(409, "Project '" + name + "' already exists"));
      }
      // `mkdir`: an empty, unlocked project directory.
      projects := projects[name := Project(false, map[])];
      // `_scaffold_project_prompts`: the prompt files are written into it.
      projects := projects[name := Project(false, scaffold)];
      r := Success(ProjectSummary(name, false, Stats(0, 0, 0.0)));
    }

    /**
     * `delete_project`: 400, 404 for a missing project, 409 while the agent
     * lock exists (deleting nothing), 500 when the removal raises;
     * otherwise the directory is gone and no other project changes.
     */
    method DeleteProject(name: string, removalFault: Option<string>) returns (r: Result<string, HttpError>)
      modifies this
      ensures ValidateProjectName(name).Failure? ==> r == Failure(ValidateProjectName(name).error) && projects == old(projects)
      ensures ValidateProjectName(name).Success? && name !in old(projects) ==>
                r == Failure(NotFound(name)) && projects == old(projects)
      ensures ValidateProjectName(name).Success? && name in old(projects) && old(projects)[name].locked ==>
                r == Failure(HttpError(409, AgentRunning)) && projects == old(projects)
      ensures ValidateProjectName(name).Success? && name in old(projects) && !old(projects)[name].locked ==>
                if removalFault.Some? then
                  r == Failure(HttpError(500, "Failed to delete project: " + removalFault.value)) && projects == old(projects)
                else
                  r == Success("Project '" + name + "' deleted") && projects == old(projects) - {name}
    {
      var valid := ValidateProjectName(name);
      if valid.Failure? {
        return Failure(valid.error);
      }
      if name !in projects {
        return Failure(NotFound(name));
      }
      if projects[name].locked {
        return Failure(HttpError(409, AgentRunning));
      }
      if removalFault.Some? {
        return Failure(HttpError(500, "Failed to delete project: " + removalFault.value));
      }
      projects := projects - {name};
      r := Success("Project '" + name + "' deleted");
    }

    /** `get_project_prompts`: 400, 404, or the three prompt files, "" for one missing or unreadable. */
    method GetProjectPrompts(name: string) returns (r: Result<Prompts, HttpError>)
      ensures ValidateProjectName(name).Failure? ==> r == Failure(ValidateProjectName(name).error)
      ensures ValidateProjectName(name).Success? && name !in projects ==> r == Failure(NotFound(name))
      ensures ValidateProjectName(name).Success? && name in projects ==>
                var p := projects[name].prompts;
                && r.Success?
                && (AppSpecFile in p && p[AppSpecFile].Readable? ==> r.value.appSpec == PyStrings.Newlines(p[AppSpecFile].text))
                && (AppSpecFile !in p || p[AppSpecFile].Unreadable? ==> r.value.appSpec == "")
                && r.value == ReadPrompts(p)
    {
      var valid := ValidateProjectName(name);
      if valid.Failure? {
        return Failure(valid.error);
      }
      if name !in projects {
        return Failure(NotFound(name));
      }
      var p := projects[name].prompts;
      r := Success(Prompts(ReadPrompt(p, AppSpecFile), ReadPrompt(p, InitializerFile), ReadPrompt(p, CodingFile)));
    }

    /**
     * `update_project_prompts`: 400, 404, or writes each given field to its
     * file, leaving the other files, the lock and the other projects alone.
     */
    method UpdateProjectPrompts(name: string, u: PromptsUpdate) returns (r: Result<string, HttpError>)
      modifies this
      ensures ValidateProjectName(name).Failure? ==> r == Failure(ValidateProjectName(name).error) && projects == old(projects)
      ensures ValidateProjectName(name).Success? && name !in old(projects) ==>
                r == Failure(NotFound(name)) && projects == old(projects)
      ensures ValidateProjectName(name).Success? && name in old(projects) ==>
                var before := old(projects)[name];
                && r == Success("Prompts updated")
                && projects == old(projects)[name := Project(before.locked, ApplyUpdate(before.prompts, u))]
    {
      var valid := ValidateProjectName(name);
      if valid.Failure? {
        return Failure(valid.error);
      }
      if name !in projects {
        return Failure(NotFound(name));
      }
      var project := projects[name];
      var prompts := project.prompts;
      prompts := WritePrompt(prompts, AppSpecFile, u.appSpec);
      prompts := WritePrompt(prompts, InitializerFile, u.initializerPrompt);
      prompts := WritePrompt(prompts, CodingFile, u.codingPrompt);
      projects := projects[name := Project(project.locked, prompts)];
      r := Success("Prompts updated");
    }
  }
}

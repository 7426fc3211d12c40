/** `main.py`: the dated output files given to the crew's tasks before a full
    run, and the console command that starts one. The current date and the
    output directory are inputs; the scheduler loop, `input()` and printing
    are not modelled. */
module GymMain {
  import opened Wrappers
  import opened Text
  import Calendar
  import GymCrew

  /** `f"{prefix}_{today}.md"`. */
  function FileName(prefix: string, today: string): string {
    prefix + "_" + today + ".md"
  }

  /** The `file_map` of `assign_output_files`, for the date rendered by
      `strftime("%Y-%m-%d")`. */
  function FileMap(today: Calendar.Date): map<string, string>
    requires Calendar.Valid(today)
  {
    var d := Calendar.IsoDate(today);
    map[
      GymCrew.SummarizeResponsesTask := FileName("summarizer_output", d),
      GymCrew.ReviewPainTask := FileName("doctor_recommendations", d),
      GymCrew.GenerateWorkoutPlanTask := FileName("trainer_plan", d),
      GymCrew.NutritionPlanTask := FileName("nutrition_plan", d),
      GymCrew.ChefMealPlanTask := FileName("chef_meals", d)]
  }

  /** `os.path.join(dir, name)` on POSIX: an absolute name replaces the
      directory; otherwise one `/` separates them unless the directory is
      empty or already ends with one. */
  function PathJoin(dir: string, name: string): (path: string)
    ensures name != [] && name[0] == '/' ==> path == name
    ensures !(name != [] && name[0] == '/') ==>
              && |dir| + |name| <= |path| <= |dir| + |name| + 1
              && path[..|dir|] == dir && path[|path| - |name|..] == name
              && (|path| == |dir| + |name| + 1 <==> dir != [] && dir[|dir| - 1] != '/')
              && (|path| == |dir| + |name| + 1 ==> path[|dir|] == '/')
  {
    if name != [] && name[0] == '/' then name
    else if dir == [] || dir[|dir| - 1] == '/' then dir + name
    else dir + "/" + name
  }

  /** A crew task as `assign_output_files` sees it: its `id` and its
      `output_file`, which the function sets in place. */
  class Task {
    const id: string
    var outputFile: Option<string>

    constructor (id: string)
      ensures this.id == id && outputFile.None?
    {
      this.id := id;
      outputFile := None;
    }
  }

  /** The output file a task ends up with: its dated file when its id is a
      key of the file map, its previous one otherwise. */
  function AssignedFile(id: string, previous: Option<string>, fileMap: map<string, string>, outputDir: string)
    : Option<string>
  {
    if id in fileMap then Some(PathJoin(outputDir, fileMap[id])) else previous
  }

  /** `assign_output_files()`: every task whose id is a key of the file map
      gets that file inside the output directory; no other task changes. The
      same task listed twice is assigned the same file twice. */
  method AssignOutputFiles(tasks: seq<Task>, today: Calendar.Date, outputDir: string)
    requires Calendar.Valid(today)
    modifies set t | t in tasks
    ensures forall t :: t in tasks ==>
              t.outputFile == AssignedFile(t.id, old(t.outputFile), FileMap(today), outputDir)
  {
    var fileMap := FileMap(today);
    for i := 0 to |tasks|
      invariant forall t :: t in tasks ==>
                  t.outputFile == if t in tasks[..i] then AssignedFile(t.id, old(t.outputFile), fileMap, outputDir)
                                  else old(t.outputFile)
    {
      var task := tasks[i];
      if task.id in fileMap {
        task.outputFile := Some(PathJoin(outputDir, fileMap[task.id]));
      }
      assert tasks[..i + 1] == tasks[..i] + [task];
    }
    assert tasks[..|tasks|] == tasks;
  }

  /** The output file of every task, in crew order, as `kickoff()` finds them. */
  function OutputFiles(tasks: seq<Task>): (files: seq<Option<string>>)
    reads set t | t in tasks
    ensures |files| == |tasks| && forall i :: 0 <= i < |tasks| ==> files[i] == tasks[i].outputFile
  {
    if tasks == [] then [] else [tasks[0].outputFile] + OutputFiles(tasks[1..])
  }

  /** `run_full_pipeline()`: the files are assigned before the crew starts,
      so every task in the file map runs with today's file. */
  method RunFullPipeline(tasks: seq<Task>, today: Calendar.Date, outputDir: string)
    returns (files: seq<Option<string>>)
    requires Calendar.Valid(today)
    modifies set t | t in tasks
    ensures |files| == |tasks|
    ensures forall i :: 0 <= i < |tasks| ==>
              files[i] == AssignedFile(tasks[i].id, old(tasks[i].outputFile), FileMap(today), outputDir)
  {
    AssignOutputFiles(tasks, today, outputDir);
    files := OutputFiles(tasks);
    assert forall i :: 0 <= i < |tasks| ==> tasks[i] in tasks;
  }

  /** `cmd.strip().lower() == "run"`. */
  predicate IsRunCommand(cmd: string) {
    Lower(Strip(cmd)) == "run"
  }

  // ---------------------------------------------------------------------
  // Properties.

  /** Every crew task except the survey gets a file, and nothing else does. */
  lemma FileMapCoversPipelineTasks(today: Calendar.Date)
    requires Calendar.Valid(today)
    ensures forall id :: id in FileMap(today) <==>
              id in GymCrew.TaskOrder && id != GymCrew.SendDailySurveyTask
  {
  }

  /** The file name determines both the prefix and the date it was made from. */
  lemma FileNameInjective(p1: string, p2: string, d1: Calendar.Date, d2: Calendar.Date)
    requires Calendar.Valid(d1) && Calendar.Valid(d2)
    ensures FileName(p1, Calendar.IsoDate(d1)) == FileName(p2, Calendar.IsoDate(d2)) <==> p1 == p2 && d1 == d2
  {
    var s1, s2 := Calendar.IsoDate(d1), Calendar.IsoDate(d2);
    var f1, f2 := FileName(p1, s1), FileName(p2, s2);
    if f1 == f2 {
      assert |p1| == |p2|;
      assert p1 == f1[..|p1|] && p2 == f2[..|p2|];
      assert s1 == f1[|p1| + 1..|p1| + 11] && s2 == f2[|p2| + 1..|p2| + 11];
      Calendar.IsoDateInjective(d1, d2);
    }
  }

  /** No two tasks, on the same day or on different days, share an output
      file. */
  lemma FileMapInjective(d1: Calendar.Date, d2: Calendar.Date, a: string, b: string)
    requires Calendar.Valid(d1) && Calendar.Valid(d2)
    requires a in FileMap(d1) && b in FileMap(d2)
    ensures FileMap(d1)[a] == FileMap(d2)[b] <==> a == b && d1 == d2
  {
    var s1, s2 := Calendar.IsoDate(d1), Calendar.IsoDate(d2);
    var prefixes := map[
      GymCrew.SummarizeResponsesTask := "summarizer_output",
      GymCrew.ReviewPainTask := "doctor_recommendations",
      GymCrew.GenerateWorkoutPlanTask := "trainer_plan",
      GymCrew.NutritionPlanTask := "nutrition_plan",
      GymCrew.ChefMealPlanTask := "chef_meals"];
    assert FileMap(d1)[a] == FileName(prefixes[a], s1);
    assert FileMap(d2)[b] == FileName(prefixes[b], s2);
    FileNameInjective(prefixes[a], prefixes[b], d1, d2);
    if prefixes[a] == prefixes[b] {
      assert prefixes[a][0] == prefixes[b][0];
    }
  }

  /** A word that lowercases to "run" starts and ends with a letter. */
  lemma RunWordEnds(w: string)
    requires Lower(w) == "run"
    ensures |w| == 3 && !IsSpace(w[0]) && !IsSpace(w[2])
  {
    assert |w| == |Lower(w)| == 3;
    assert Lower(w)[0] == 'r' && Lower(w)[2] == 'n';
    assert w[0] == 'r' || w[0] == 'R';
    assert w[2] == 'n' || w[2] == 'N';
  }

  /** "run" in any letter case, with any surrounding whitespace, starts a run. */
  lemma RunCommandAccepted(pre: string, w: string, post: string)
    requires AllSpace(pre) && AllSpace(post) && Lower(w) == "run"
    ensures IsRunCommand(pre + w + post)
  {
    RunWordEnds(w);
    StripPadded(pre, w, post);
  }

  /** Only such input starts a run. */
  lemma RunCommandOnly(cmd: string)
    requires IsRunCommand(cmd)
    ensures exists i, j :: 0 <= i <= j <= |cmd| && AllSpace(cmd[..i]) && AllSpace(cmd[j..])
                           && Lower(cmd[i..j]) == "run"
  {
    var l := StripLeading(cmd);
    var i := |cmd| - |l|;
    var r := StripTrailing(l);
    var j := i + |r|;
    assert cmd[i..j] == r;
    assert cmd[j..] == l[|r|..];
  }
}

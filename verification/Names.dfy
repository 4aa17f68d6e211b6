/** The files of a request (v4/server/utils/make_filename.c) and the shell commands that grade
    it (v4/server/utils/system_commands.c). */
module Names {
  import opened CText

  /** The six files that exist for each request. */
  datatype Kind = Program | Exec | CompileReport | RuntimeReport | Output | DiffReport

  function Prefix(kind: Kind): (s: string)
    ensures |s| >= 15
  {
    match kind
    case Program => "logs/files/file"
    case Exec => "logs/files/prog"
    case CompileReport => "logs/outputs/compiler_err"
    case RuntimeReport => "logs/outputs/runtime_err"
    case Output => "logs/outputs/out"
    case DiffReport => "logs/outputs/output_diff"
  }

  function Suffix(kind: Kind): string {
    if kind.Program? then ".cpp" else ""
  }

  function Name(kind: Kind, id: int): string {
    Prefix(kind) + Decimal(id) + Suffix(kind)
  }

  /** The names in full. */
  lemma NameTexts(id: int)
    ensures Name(Program, id) == "logs/files/file" + Decimal(id) + ".cpp"
    ensures Name(Exec, id) == "logs/files/prog" + Decimal(id)
    ensures Name(CompileReport, id) == "logs/outputs/compiler_err" + Decimal(id)
    ensures Name(RuntimeReport, id) == "logs/outputs/runtime_err" + Decimal(id)
    ensures Name(Output, id) == "logs/outputs/out" + Decimal(id)
    ensures Name(DiffReport, id) == "logs/outputs/output_diff" + Decimal(id)
  {
    forall s: string
      ensures s + "" == s
    {
    }
  }

  /** The make_*_filename functions: a 200-byte buffer filled by strcpy and strcat. */
  method MakeFilename(kind: Kind, id: int) returns (s: string)
    requires IsInt32(id)
    ensures s == Name(kind, id)
    ensures kind == Program ==> s == "logs/files/file" + Decimal(id) + ".cpp"
    ensures kind == Exec ==> s == "logs/files/prog" + Decimal(id)
    ensures kind == CompileReport ==> s == "logs/outputs/compiler_err" + Decimal(id)
    ensures kind == RuntimeReport ==> s == "logs/outputs/runtime_err" + Decimal(id)
    ensures kind == Output ==> s == "logs/outputs/out" + Decimal(id)
    ensures kind == DiffReport ==> s == "logs/outputs/output_diff" + Decimal(id)
    ensures |s| < 200
  {
    var s1 := Decimal(id);
    DecimalLength(id);
    NameTexts(id);
    s := Prefix(kind);
    s := s + s1;
    s := s + Suffix(kind);
  }

  /** The kind of a file, told from a few characters of its name. */
  function KindOf(name: string): Kind
    requires |name| > 13
  {
    if name[5] == 'f' then (if name[11] == 'f' then Program else Exec)
    else if name[13] == 'c' then CompileReport
    else if name[13] == 'r' then RuntimeReport
    else if |name| > 16 && name[16] == 'p' then DiffReport
    else Output
  }

  lemma KindOfName(kind: Kind, id: int)
    ensures |Name(kind, id)| > 13 && KindOf(Name(kind, id)) == kind
  {
    var s, p := Name(kind, id), Prefix(kind);
    assert forall k :: 0 <= k < |p| ==> s[k] == p[k];
    if kind.Output? {
      DecimalChars(id);
      assert s[16] == Decimal(id)[0];
      assert s[16] in Decimal(id);
    }
  }

  /** Distinct files of distinct requests have distinct names. */
  lemma NamesInjective(a: Kind, i: int, b: Kind, j: int)
    requires Name(a, i) == Name(b, j)
    ensures a == b && i == j
  {
    KindOfName(a, i);
    KindOfName(b, j);
    var m, n := |Prefix(a)|, |Name(a, i)| - |Suffix(a)|;
    assert Decimal(i) == Name(a, i)[m..n];
    assert Decimal(j) == Name(a, j)[m..n];
    DecimalInjective(i, j);
  }

  /** The files that grading a request writes. */
  function GradingFiles(id: int): set<string> {
    set kind: Kind | kind != Program :: Name(kind, id)
  }

  /** Two requests can be graded at the same time: neither writes a file the other writes, nor
      any request's source file. */
  lemma GradingsDisjoint(i: int, j: int)
    requires i != j
    ensures GradingFiles(i) !! GradingFiles(j)
    ensures Name(Program, j) !in GradingFiles(i) && Name(Program, i) !in GradingFiles(i)
  {
    forall s | s in GradingFiles(i)
      ensures s !in GradingFiles(j) && s != Name(Program, j) && s != Name(Program, i)
    {
      var a: Kind :| a != Program && s == Name(a, i);
      if s in GradingFiles(j) {
        var b: Kind :| b != Program && s == Name(b, j);
        NamesInjective(a, i, b, j);
      }
      if s == Name(Program, j) {
        NamesInjective(a, i, Program, j);
      }
      if s == Name(Program, i) {
        NamesInjective(a, i, Program, i);
      }
    }
  }

  // ------------------------------------------------------------------ the commands

  /** A redirection operator, the start of a file name and the request's number, as they are
      appended to a command, make the operator and the name of the file. */
  lemma RedirectTarget(command: string, op: string, kind: Kind, id: int)
    requires !kind.Program?
    ensures (command + (op + Prefix(kind))) + Decimal(id) == command + op + Name(kind, id)
  {
    assert Name(kind, id) == Prefix(kind) + Decimal(id);
  }

  method CompileCommand(id: int, programFile: string, execFile: string) returns (s: string)
    ensures s == "g++ -o " + execFile + "  " + programFile + " 2> " + Name(CompileReport, id)
  {
    s := "g++ -o ";
    s := s + execFile;
    s := s + "  ";
    s := s + programFile;
    RedirectTarget(s, " 2> ", CompileReport, id);
    s := s + (" 2> " + "logs/outputs/compiler_err");
    var s1 := Decimal(id);
    s := s + s1;
  }

  method RunCommand(id: int, execFile: string) returns (s: string)
    ensures s == "./" + execFile + " > " + Name(Output, id) + " 2> " + Name(RuntimeReport, id)
  {
    var s1 := Decimal(id);
    s := "./";
    s := s + execFile;
    RedirectTarget(s, " > ", Output, id);
    s := s + (" > " + "logs/outputs/out");
    s := s + s1;
    RedirectTarget(s, " 2> ", RuntimeReport, id);
    s := s + (" 2> " + "logs/outputs/runtime_err");
    s := s + s1;
  }

  method OutputCheckCommand(id: int, outputFile: string) returns (s: string)
    ensures s == "diff -Z " + outputFile + " expected_output.txt" + " > " + Name(DiffReport, id)
  {
    var s1 := Decimal(id);
    s := "diff -Z ";
    s := s + outputFile;
    s := s + " expected_output.txt";
    RedirectTarget(s, " > ", DiffReport, id);
    s := s + (" > " + "logs/outputs/output_diff");
    s := s + s1;
  }

  /** The commands of a grading, built as grader builds them: each from the names that the
      make_*_filename functions give. */
  method GradingCommands(id: int) returns (compile: string, run: string, check: string)
    requires IsInt32(id)
    ensures var d := Decimal(id);
            && compile == "g++ -o " + ("logs/files/prog" + d) + "  " + ("logs/files/file" + d + ".cpp")
                          + " 2> " + ("logs/outputs/compiler_err" + d)
            && run == "./" + ("logs/files/prog" + d) + " > " + ("logs/outputs/out" + d)
                      + " 2> " + ("logs/outputs/runtime_err" + d)
            && check == "diff -Z " + ("logs/outputs/out" + d) + " expected_output.txt"
                        + " > " + ("logs/outputs/output_diff" + d)
  {
    NameTexts(id);
    var programFile := MakeFilename(Program, id);
    var execFile := MakeFilename(Exec, id);
    var outputFile := MakeFilename(Output, id);
    compile := CompileCommand(id, programFile, execFile);
    run := RunCommand(id, execFile);
    check := OutputCheckCommand(id, outputFile);
  }
}

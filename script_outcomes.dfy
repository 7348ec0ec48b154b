/** How each transform script ends: the value its transform function
    returns (or the exception that escapes it), what it leaves at the output
    path, and the process exit code of its `__main__` block. Which library
    call raises is a parameter; the audio itself is not modelled here. */
module ScriptOutcomes {
  import MagentaEffects

  /** The five scripts run as `python <script> input output genre`. */
  datatype Script = Spleeter | Process | Simple | MagentaInspired | MagentaTransform

  /** Which steps raise: loading the input, the rest of the main effect
      chain (including writing its result), the fallback effect chain
      (including its write), and the last-resort copy. */
  datatype Faults = Faults(load: bool, effects: bool, fallback: bool, copy: bool)

  /** What the output path holds afterwards. */
  datatype Output = Processed | FallbackProcessed | CopiedInput | Untouched

  /** The transform function returns a flag, or an exception escapes it. */
  datatype Ending = Returns(flag: bool) | Raises

  datatype Result = Result(ending: Ending, output: Output)

  /** The main effect chain fails when the load or anything after it
      raises. */
  predicate PrimaryFails(f: Faults) { f.load || f.effects }

  /** The transform function of each script, by its `try`/`except`
      structure. */
  function Transform(script: Script, f: Faults): Result {
    if !PrimaryFails(f) then Result(Returns(true), Processed)
    else match script
      // Simple effects, then a copy that is itself guarded; True after a
      // successful copy, False only when everything failed.
      case Spleeter =>
        if !f.fallback then Result(Returns(true), FallbackProcessed)
        else if !f.copy then Result(Returns(true), CopiedInput)
        else Result(Returns(false), Untouched)
      // A guarded copy, and False either way.
      case Process =>
        Result(Returns(false), if f.copy then Untouched else CopiedInput)
      // An unguarded copy: its failure escapes.
      case Simple =>
        if f.copy then Result(Raises, Untouched) else Result(Returns(false), CopiedInput)
      // The fallback re-uses the loaded samples, so it cannot succeed when
      // the load failed (the name is unbound); then an unguarded copy.
      case _ =>
        if !f.load && !f.fallback then Result(Returns(true), FallbackProcessed)
        else if f.copy then Result(Raises, Untouched)
        else Result(Returns(false), CopiedInput)
  }

  /** `sys.exit(0 if success else 1)`; an exception escaping to the top
      level ends the interpreter with status 1. */
  function ExitCode(e: Ending): nat {
    if e == Returns(true) then 0 else 1
  }

  /** The `__main__` block: a wrong argument count exits 1 before anything
      runs; spleeter_transform.py also exits 1 when the input file does not
      exist. */
  function Main(script: Script, argc: nat, inputExists: bool, f: Faults): (r: (nat, Output)) {
    if argc != 4 then (1, Untouched)
    else if script == Spleeter && !inputExists then (1, Untouched)
    else
      var res := Transform(script, f);
      (ExitCode(res.ending), res.output)
  }

  /** spleeter_transform.py returns False only when the main chain, the
      simple effects and the copy all fail; it never raises. */
  lemma SpleeterFallbackContract(f: Faults)
    ensures Transform(Spleeter, f).ending != Raises
    ensures Transform(Spleeter, f).ending == Returns(false) <==> PrimaryFails(f) && f.fallback && f.copy
    ensures PrimaryFails(f) && f.fallback && !f.copy ==> Transform(Spleeter, f) == Result(Returns(true), CopiedInput)
  {
  }

  /** process_audio.py returns False after any fault, whether or not the
      copy worked, and never raises. */
  lemma ProcessFallbackContract(f: Faults)
    ensures Transform(Process, f).ending == Returns(!PrimaryFails(f))
    ensures PrimaryFails(f) ==> (Transform(Process, f).output == CopiedInput <==> !f.copy)
  {
  }

  /** simple_transform.py copies after any fault and returns False; a
      failing copy escapes. */
  lemma SimpleFallbackContract(f: Faults)
    ensures Transform(Simple, f).ending == Raises <==> PrimaryFails(f) && f.copy
    ensures Transform(Simple, f).ending == Returns(false) <==> PrimaryFails(f) && !f.copy
    ensures Transform(Simple, f).ending == Returns(false) ==> Transform(Simple, f).output == CopiedInput
  {
  }

  /** In both Magenta scripts the simple effects rescue a failed main chain
      (returning True) unless the load itself failed or they raise; then the
      copy gives False, and a failing copy escapes. */
  lemma MagentaFallbackContract(script: Script, f: Faults)
    requires script == MagentaInspired || script == MagentaTransform
    ensures Transform(script, f).ending == Returns(true) <==> !PrimaryFails(f) || (!f.load && !f.fallback)
    ensures f.load ==> Transform(script, f).output != FallbackProcessed && Transform(script, f).output != Processed
    ensures Transform(script, f).ending == Raises <==> PrimaryFails(f) && (f.load || f.fallback) && f.copy
  {
  }

  /** The faults of a Magenta run on `samples` samples of audio: besides
      the faults given, the electronic style's synth loop raises whenever
      there is audio (MagentaEffects.SynthVoices), so that style's main
      chain fails. */
  function MagentaFaults(genre: string, samples: nat, f: Faults): Faults {
    f.(effects := f.effects || (MagentaEffects.StyleOf(genre) == MagentaEffects.Electronic && samples > 0))
  }

  /** In both Magenta scripts an electronic request on non-empty audio never
      leaves the main chain's output: the simple effects or the copy stand
      in, and the script exits 0 exactly when the load and the simple
      effects succeed. Every other request meets only the faults given. */
  lemma ElectronicFallsBack(script: Script, genre: string, samples: nat, f: Faults)
    requires script == MagentaInspired || script == MagentaTransform
    ensures MagentaEffects.StyleOf(genre) == MagentaEffects.Electronic && samples > 0 ==>
              Transform(script, MagentaFaults(genre, samples, f)).output != Processed &&
              (Main(script, 4, true, MagentaFaults(genre, samples, f)).0 == 0 <==> !f.load && !f.fallback)
    ensures MagentaEffects.StyleOf(genre) != MagentaEffects.Electronic || samples == 0 ==>
              MagentaFaults(genre, samples, f) == f
  {
  }

  /** Exit codes: 1 for a wrong argument count, whatever else holds; 0 only
      when the transform returned True, which for every script but
      spleeter_transform.py means the output holds processed audio. The
      spleeter script also exits 0 after merely copying its input. */
  lemma ExitCodeContract(script: Script, argc: nat, inputExists: bool, f: Faults)
    ensures argc != 4 ==> Main(script, argc, inputExists, f) == (1, Untouched)
    ensures script == Spleeter && !inputExists ==> Main(script, argc, inputExists, f).0 == 1
    ensures argc == 4 && (script != Spleeter || inputExists) ==>
              (Main(script, argc, inputExists, f).0 == 0 <==> Transform(script, f).ending == Returns(true))
    ensures script != Spleeter && Main(script, argc, inputExists, f).0 == 0 ==>
              Main(script, argc, inputExists, f).1 in {Processed, FallbackProcessed}
    ensures argc == 4 && inputExists && PrimaryFails(f) && f.fallback && !f.copy ==>
              Main(Spleeter, argc, inputExists, f) == (0, CopiedInput)
  {
  }
}

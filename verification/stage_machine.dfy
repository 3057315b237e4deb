/** The template of `__call__` as a state machine: one state per point
    between stages, `Done` after formatting, `Failed` when a stage raises.
    It is a second, step-at-a-time definition of the call, proved to agree
    with `Pipeline.Call`. */
module StageMachine {
  import opened Outcomes
  import opened Images
  import opened Reconcile
  import opened Reorder
  import opened Pipeline

  datatype Machine<T> =
    | Idle
    | ImagesResolved(images: seq<Image>, warned: bool)
    | ImagesValidated(images: seq<Image>, warned: bool)
    | DataRead(images: seq<Image>, warned: bool, read: ReaderOutput<T>)
    | ReorderChecked(images: seq<Image>, warned: bool, data: T, names: Option<seq<string>>, metadata: Option<T>)
    | ImagesReordered(images: seq<Image>, warned: bool, data: T, metadata: Option<T>)
    | Preprocessed(images: seq<Image>, warned: bool, x: T, metadata: Option<T>)
    | Inferred(images: seq<Image>, warned: bool, out: T, metadata: Option<T>)
    | Postprocessed(images: seq<Image>, warned: bool, result: T)
    | Done(response: Response<T>)
    | Failed(at: Stage, error: Error)

  /** The stage a machine runs next; none once it has finished or failed. */
  function Pending<T>(s: Machine<T>): Option<Stage>
  {
    match s
    case Idle => Some(ResolveImages)
    case ImagesResolved(_, _) => Some(ValidateImages)
    case ImagesValidated(_, _) => Some(ReadData)
    case DataRead(_, _, _) => Some(CheckReorder)
    case ReorderChecked(_, _, _, _, _) => Some(ReorderImages)
    case ImagesReordered(_, _, _, _) => Some(Preprocess)
    case Preprocessed(_, _, _, _) => Some(Infer)
    case Inferred(_, _, _, _) => Some(Postprocess)
    case Postprocessed(_, _, _) => Some(FormatOutput)
    case Done(_) => None
    case Failed(_, _) => None
  }

  /** Runs the pending stage. */
  function Step<T>(m: InferenceModel<T>, env: Env, input: NetInput, s: Machine<T>): Machine<T>
  {
    match s
    case Idle =>
      (match SetImages(input.files, input.images, env.freshId)
       case Err(e) => Failed(ResolveImages, e)
       case Ok(resolved) => ImagesResolved(resolved.images, resolved.warned))
    case ImagesResolved(images, warned) =>
      (match FirstInvalid(images, env.validImage)
       case Some(k) => Failed(ValidateImages, InvalidImage(k))
       case None => ImagesValidated(images, warned))
    case ImagesValidated(images, warned) =>
      DataRead(images, warned, m.dataReader(input))
    case DataRead(images, warned, read) =>
      (match CheckedNames(read.reorder)
       case Err(e) => Failed(CheckReorder, e)
       case Ok(names) => ReorderChecked(images, warned, read.data, names, read.metadata))
    case ReorderChecked(images, warned, data, names, metadata) =>
      (match UpdateImages(images, input.files, names)
       case Err(e) => Failed(ReorderImages, e)
       case Ok(reordered) => ImagesReordered(reordered, warned, data, metadata))
    case ImagesReordered(images, warned, data, metadata) =>
      Preprocessed(images, warned, m.preprocess(data), metadata)
    case Preprocessed(images, warned, x, metadata) =>
      Inferred(images, warned, m.inference(x), metadata)
    case Inferred(images, warned, out, metadata) =>
      Postprocessed(images, warned, m.postprocess(out, metadata))
    case Postprocessed(images, warned, result) =>
      Done(Response(m.outputFormatter(result, images, m.categories, m.regressions), images, warned))
    case Done(_) => s
    case Failed(_, _) => s
  }

  /** Position of a stage in the fixed order. */
  function Position(stage: Stage): (i: nat)
    ensures i < |StageOrder| && StageOrder[i] == stage
  {
    match stage
    case ResolveImages => 0
    case ValidateImages => 1
    case ReadData => 2
    case CheckReorder => 3
    case ReorderImages => 4
    case Preprocess => 5
    case Infer => 6
    case Postprocess => 7
    case FormatOutput => 8
  }

  /** Runs up to `fuel` stages, returning the final machine and the stages run. */
  function Run<T>(m: InferenceModel<T>, env: Env, input: NetInput, s: Machine<T>, fuel: nat): (Machine<T>, seq<Stage>)
    decreases fuel
  {
    if fuel == 0 || Pending(s).None? then (s, [])
    else
      var (final, trace) := Run(m, env, input, Step(m, env, input, s), fuel - 1);
      (final, [Pending(s).value] + trace)
  }

  /** The machine is linear: a step either fails in the pending stage, or
      finishes after formatting, or moves on to the next stage of the fixed
      order; a finished or failed machine stays put. */
  lemma StepIsLinear<T>(m: InferenceModel<T>, env: Env, input: NetInput, s: Machine<T>)
    ensures Pending(s).None? ==> Step(m, env, input, s) == s && (s.Done? || s.Failed?)
    ensures Pending(s).Some? ==>
              var t := Step(m, env, input, s);
              || (t.Failed? && t.at == Pending(s).value)
              || (t.Done? && Pending(s) == Some(FormatOutput))
              || (Pending(t).Some? && Position(Pending(t).value) == Position(Pending(s).value) + 1)
  {
  }

  /** Running the machine from idle for nine steps agrees with `o`: the same
      stages, ending in `Done` with its response or in `Failed` at its last
      stage with its error. */
  ghost predicate Agrees<T>(m: InferenceModel<T>, env: Env, input: NetInput, o: Outcome<T>)
  {
    var (final, trace) := Run(m, env, input, Idle, |StageOrder|);
    && trace == o.trace
    && (o.result.Ok? ==> final == Done(o.result.value))
    && (o.result.Err? ==> 0 < |o.trace| && final == Failed(o.trace[|o.trace| - 1], o.result.error))
  }

  /** The step-at-a-time machine and `Call` define the same call. */
  lemma {:induction false} MachineAgreesWithCall<T>(m: InferenceModel<T>, env: Env, input: NetInput)
    ensures Agrees(m, env, input, Call(m, env, input))
  {
    match SetImages(input.files, input.images, env.freshId)
    case Err(e) =>
      AgreesWhenResolveFails(m, env, input, e);
    case Ok(resolved) =>
      match FirstInvalid(resolved.images, env.validImage)
      case Some(k) =>
        AgreesWhenValidateFails(m, env, input, resolved, k);
      case None =>
        var read := m.dataReader(input);
        match CheckedNames(read.reorder)
        case Err(e) =>
          AgreesWhenCheckFails(m, env, input, resolved, read, e);
        case Ok(names) =>
          AgreesAfterCheck(m, env, input, resolved, read, names);
  }

  /** The path on which reconciliation fails. */
  lemma AgreesWhenResolveFails<T>(m: InferenceModel<T>, env: Env, input: NetInput, e: Error)
    requires SetImages(input.files, input.images, env.freshId) == Err(e)
    ensures Agrees(m, env, input, Call(m, env, input))
  {
    var s1: Machine<T> := Failed(ResolveImages, e);
    assert Step(m, env, input, Idle) == s1;
    RunOneStep(m, env, input, Idle, 9);
    RunStops(m, env, input, s1, 8);
    assert Call(m, env, input) == Outcome([ResolveImages], Err(e));
  }

  /** The path on which a record fails the schema. */
  lemma AgreesWhenValidateFails<T>(m: InferenceModel<T>, env: Env, input: NetInput, resolved: Resolved, k: nat)
    requires SetImages(input.files, input.images, env.freshId) == Ok(resolved)
    requires FirstInvalid(resolved.images, env.validImage) == Some(k)
    ensures Agrees(m, env, input, Call(m, env, input))
  {
    var s1: Machine<T> := ImagesResolved(resolved.images, resolved.warned);
    var s2: Machine<T> := Failed(ValidateImages, InvalidImage(k));
    RunOneStep(m, env, input, Idle, 9);
    RunOneStep(m, env, input, s1, 8);
    RunStops(m, env, input, s2, 7);
    assert Call(m, env, input) == Outcome([ResolveImages, ValidateImages], Err(InvalidImage(k)));
  }

  /** The run of the first three stages when they succeed. */
  lemma RunThroughRead<T>(m: InferenceModel<T>, env: Env, input: NetInput, resolved: Resolved)
    requires SetImages(input.files, input.images, env.freshId) == Ok(resolved)
    requires FirstInvalid(resolved.images, env.validImage).None?
    ensures
      var s3 := DataRead(resolved.images, resolved.warned, m.dataReader(input));
      && Run(m, env, input, Idle, 9).0 == Run(m, env, input, s3, 6).0
      && Run(m, env, input, Idle, 9).1 == [ResolveImages, ValidateImages, ReadData] + Run(m, env, input, s3, 6).1
  {
    var s1: Machine<T> := ImagesResolved(resolved.images, resolved.warned);
    var s2: Machine<T> := ImagesValidated(resolved.images, resolved.warned);
    var s3: Machine<T> := DataRead(resolved.images, resolved.warned, m.dataReader(input));
    assert Step(m, env, input, Idle) == s1;
    assert Step(m, env, input, s1) == s2;
    assert Step(m, env, input, s2) == s3;
    RunOneStep(m, env, input, Idle, 9);
    RunOneStep(m, env, input, s1, 8);
    RunOneStep(m, env, input, s2, 7);
  }

  /** The path on which `modified_filenames` is not a sequence. */
  lemma AgreesWhenCheckFails<T>(m: InferenceModel<T>, env: Env, input: NetInput, resolved: Resolved,
                                read: ReaderOutput<T>, e: Error)
    requires SetImages(input.files, input.images, env.freshId) == Ok(resolved)
    requires FirstInvalid(resolved.images, env.validImage).None?
    requires read == m.dataReader(input)
    requires CheckedNames(read.reorder) == Err(e)
    ensures Agrees(m, env, input, Call(m, env, input))
  {
    var s3: Machine<T> := DataRead(resolved.images, resolved.warned, read);
    var s4: Machine<T> := Failed(CheckReorder, e);
    RunThroughRead(m, env, input, resolved);
    RunOneStep(m, env, input, s3, 6);
    RunStops(m, env, input, s4, 5);
    assert Call(m, env, input) == Outcome(StageOrder[..4], Err(e));
  }

  /** The run of the first five stages when the report passes the type check. */
  lemma RunThroughCheck<T>(m: InferenceModel<T>, env: Env, input: NetInput, resolved: Resolved,
                           read: ReaderOutput<T>, names: Option<seq<string>>)
    requires SetImages(input.files, input.images, env.freshId) == Ok(resolved)
    requires FirstInvalid(resolved.images, env.validImage).None?
    requires read == m.dataReader(input)
    requires CheckedNames(read.reorder) == Ok(names)
    ensures
      var s5 := Step(m, env, input, ReorderChecked(resolved.images, resolved.warned, read.data, names, read.metadata));
      && Run(m, env, input, Idle, 9).0 == Run(m, env, input, s5, 4).0
      && Run(m, env, input, Idle, 9).1 == StageOrder[..5] + Run(m, env, input, s5, 4).1
  {
    var s3: Machine<T> := DataRead(resolved.images, resolved.warned, read);
    var s4: Machine<T> := ReorderChecked(resolved.images, resolved.warned, read.data, names, read.metadata);
    assert Step(m, env, input, s3) == s4;
    RunThroughRead(m, env, input, resolved);
    RunOneStep(m, env, input, s3, 6);
    RunOneStep(m, env, input, s4, 5);
  }

  /** The paths on which the report passes the type check. */
  lemma AgreesAfterCheck<T>(m: InferenceModel<T>, env: Env, input: NetInput, resolved: Resolved,
                            read: ReaderOutput<T>, names: Option<seq<string>>)
    requires SetImages(input.files, input.images, env.freshId) == Ok(resolved)
    requires FirstInvalid(resolved.images, env.validImage).None?
    requires read == m.dataReader(input)
    requires CheckedNames(read.reorder) == Ok(names)
    ensures Agrees(m, env, input, Call(m, env, input))
  {
    RunThroughCheck(m, env, input, resolved, read, names);
    match UpdateImages(resolved.images, input.files, names)
    case Err(e) =>
      AgreesWhenReorderFails(m, env, input, resolved, read, names, e);
    case Ok(images) =>
      var s5 := ImagesReordered(images, resolved.warned, read.data, read.metadata);
      RunFromReordered(m, env, input, s5);
      assert StageOrder[..5] + [Preprocess, Infer, Postprocess, FormatOutput] == StageOrder;
  }

  /** The path on which the reordering fails. */
  lemma AgreesWhenReorderFails<T>(m: InferenceModel<T>, env: Env, input: NetInput, resolved: Resolved,
                                  read: ReaderOutput<T>, names: Option<seq<string>>, e: Error)
    requires SetImages(input.files, input.images, env.freshId) == Ok(resolved)
    requires FirstInvalid(resolved.images, env.validImage).None?
    requires read == m.dataReader(input)
    requires CheckedNames(read.reorder) == Ok(names)
    requires UpdateImages(resolved.images, input.files, names) == Err(e)
    ensures Agrees(m, env, input, Call(m, env, input))
  {
    var s5: Machine<T> := Failed(ReorderImages, e);
    RunThroughCheck(m, env, input, resolved, read, names);
    RunStops(m, env, input, s5, 4);
    assert Call(m, env, input) == Outcome(StageOrder[..5], Err(e));
  }

  /** Unfolds one step of `Run`. */
  lemma RunOneStep<T>(m: InferenceModel<T>, env: Env, input: NetInput, s: Machine<T>, fuel: nat)
    requires fuel > 0 && Pending(s).Some?
    ensures Run(m, env, input, s, fuel).0 == Run(m, env, input, Step(m, env, input, s), fuel - 1).0
    ensures Run(m, env, input, s, fuel).1 == [Pending(s).value] + Run(m, env, input, Step(m, env, input, s), fuel - 1).1
  {
  }

  /** From reordered images the four business stages run and format. */
  lemma RunFromReordered<T>(m: InferenceModel<T>, env: Env, input: NetInput, s: Machine<T>)
    requires s.ImagesReordered?
    ensures Run(m, env, input, s, 4).1 == [Preprocess, Infer, Postprocess, FormatOutput]
    ensures Run(m, env, input, s, 4).0
            == Done(Response(m.outputFormatter(m.postprocess(m.inference(m.preprocess(s.data)), s.metadata),
                                               s.images, m.categories, m.regressions),
                             s.images, s.warned))
  {
    var s6 := Step(m, env, input, s);
    var s7 := Step(m, env, input, s6);
    var s8 := Step(m, env, input, s7);
    var s9 := Step(m, env, input, s8);
    RunOneStep(m, env, input, s, 4);
    RunOneStep(m, env, input, s6, 3);
    RunOneStep(m, env, input, s7, 2);
    RunOneStep(m, env, input, s8, 1);
    assert Run(m, env, input, s9, 0) == (s9, []);
  }

  /** A machine with nothing pending stays as it is and runs no stage. */
  lemma RunStops<T>(m: InferenceModel<T>, env: Env, input: NetInput, s: Machine<T>, fuel: nat)
    ensures Pending(s).None? ==> Run(m, env, input, s, fuel) == (s, [])
  {
  }
}

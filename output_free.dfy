/** The last act of both `main`s: freeing `ctx.output_file`. The name is
    either a block from `malloc` (the derived default) or `optarg`, which
    points into argv. Both files guard the call with `ctx.output_file &&
    ctx.output_file != argv[optind]` (mika2c.c:296, 306, 366; mikac.c:364),
    which compares the name with the input path rather than asking where
    the name came from. */
module OutputFree {
  import opened CStrings

  /** Where `ctx.output_file` points: into argument `index` of argv, or to
      a block `malloc` returned. */
  datatype Pointer = IntoArgv(index: nat) | HeapBlock

  /** How `main` ends: by returning a status, or by passing `free` a
      pointer `malloc` never returned, which is undefined behaviour. */
  datatype Exit = Returns(status: int) | InvalidFree

  /** The guard as written: a non-null name that is not argv[optind]. */
  predicate FreesAsWritten(p: Option<Pointer>, optind: nat) {
    p.Some? && p.value != IntoArgv(optind)
  }

  /** The guard as intended: free the name exactly when it was allocated. */
  predicate FreesIntended(p: Option<Pointer>) {
    p.Some? && p.value.HeapBlock?
  }

  /** The end of `main`: free the name if the guard says so, then return. */
  function EndOfMain(status: int, p: Option<Pointer>, frees: bool): (e: Exit)
    ensures e.InvalidFree? <==> frees && p.Some? && p.value.IntoArgv?
    ensures e.Returns? ==> e.status == status
  {
    if frees && p.Some? && p.value.IntoArgv? then InvalidFree else Returns(status)
  }

  /** As written, the guard frees every argv pointer except argv[optind];
      `optarg` is always one of them, so `-o` leads to an invalid free. */
  lemma AsWrittenGuardFreesArgv(status: int, p: Option<Pointer>, optind: nat)
    ensures EndOfMain(status, p, FreesAsWritten(p, optind)) == InvalidFree <==>
            p.Some? && p.value.IntoArgv? && p.value.index != optind
  {
  }

  /** With the intended guard `main` always returns its status, and a
      malloc'd name is still freed. */
  lemma IntendedGuardReturnsStatus(status: int, p: Option<Pointer>)
    ensures EndOfMain(status, p, FreesIntended(p)) == Returns(status)
    ensures p == Some(HeapBlock) ==> FreesIntended(p)
  {
  }
}

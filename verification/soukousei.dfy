/** The multi-field error accumulator of the `soukousei` crate: a sequence of
    (field path, leaf error) entries that a layer fills while it visits its fields, the
    error a layer's `complete` returns, and the bridge that folds a nested layer's
    completion error into its parent's accumulator. Every operation returns a new
    accumulator instead of mutating one in place. */
module Soukousei {
  import opened Wrappers

  /** The leaf error recorded for a required field that no source filled. */
  datatype MissingFieldError = MissingFieldError

  /** One leaf error with the path it was recorded at. `AddLoc` pushes a segment onto the
      END of the path and nesting happens from the inside out, so a path is stored
      leaf-first: `foo_env` inside `nested` is stored as ["foo_env", "nested"]. */
  datatype WithPath<T> = WithPath(path: seq<string>, value: T)

  /** `WithPath::add_loc`: push one more (outer) segment onto the end of the path. The
      segments already there keep their places, so the leaf stays first and the newest,
      outermost segment is last; the error itself is untouched. */
  function AddLoc<T>(w: WithPath<T>, loc: string): (r: WithPath<T>)
    ensures r.value == w.value
    ensures |r.path| == |w.path| + 1 && r.path[..|w.path|] == w.path && r.path[|w.path|] == loc
  {
    w.(path := w.path + [loc])
  }

  /** The entries of `xs`, in their order, each with `loc` pushed onto its path. */
  function NestedEntries<T>(xs: seq<WithPath<T>>, loc: string): (r: seq<WithPath<T>>)
    ensures |r| == |xs|
    ensures forall i :: 0 <= i < |xs| ==> r[i] == WithPath(xs[i].path + [loc], xs[i].value)
  {
    if |xs| == 0 then [] else [AddLoc(xs[0], loc)] + NestedEntries(xs[1..], loc)
  }

  /** Nesting twice pushes both segments, the inner one first: a failure two levels deep
      keeps the whole path to the root, stored leaf-to-root. */
  lemma NestedEntriesTwice<T>(xs: seq<WithPath<T>>, inner: string, outer: string)
    ensures var r := NestedEntries(NestedEntries(xs, inner), outer);
            && |r| == |xs|
            && forall i :: 0 <= i < |xs| ==> r[i] == WithPath(xs[i].path + [inner, outer], xs[i].value)
  {
    var r := NestedEntries(NestedEntries(xs, inner), outer);
    forall i | 0 <= i < |xs|
      ensures r[i] == WithPath(xs[i].path + [inner, outer], xs[i].value)
    {
      assert xs[i].path + [inner] + [outer] == xs[i].path + [inner, outer];
    }
  }

  /** `FieldsAcc<T>`: the ordered entries collected so far. */
  datatype FieldsAcc<T> = FieldsAcc(paths: seq<WithPath<T>>)

  /** `FieldsAcc::add_field`: append one entry whose path is just `loc`. */
  function AddField<T>(acc: FieldsAcc<T>, value: T, loc: string): (r: FieldsAcc<T>)
    ensures r.paths == acc.paths + [WithPath([loc], value)]
  {
    assert [] + [loc] == [loc];
    FieldsAcc(acc.paths + [AddLoc(WithPath([], value), loc)])
  }

  /** `FieldsAcc::nest`: push every entry of `other`, in order, each with `loc` added to
      its path. Written as the loop of the source: one push per child entry. */
  function NestFields<T>(acc: FieldsAcc<T>, other: FieldsAcc<T>, loc: string): (r: FieldsAcc<T>)
    ensures r.paths == acc.paths + NestedEntries(other.paths, loc)
    decreases |other.paths|
  {
    if |other.paths| == 0 then acc
    else NestFields(FieldsAcc(acc.paths + [AddLoc(other.paths[0], loc)]), FieldsAcc(other.paths[1..]), loc)
  }

  /** `MultipleFieldsError<T>`: the accumulator handed from field to field. */
  datatype MultipleFieldsError<T> = MultipleFieldsError(fields: FieldsAcc<T>)

  /** The entries of an accumulator, oldest first. */
  function Entries<T>(e: MultipleFieldsError<T>): seq<WithPath<T>>
  {
    e.fields.paths
  }

  /** Every entry carries at least one path segment, so it renders to a named field. */
  predicate WellFormed<T>(e: MultipleFieldsError<T>)
  {
    forall i :: 0 <= i < |Entries(e)| ==> Entries(e)[i].path != []
  }

  /** `MultipleFieldsError::new`: no entries; `AsResult` of it succeeds. */
  function New<T>(): (r: MultipleFieldsError<T>)
    ensures Entries(r) == []
    ensures AsResult(r) == Ok(())
  {
    MultipleFieldsError(FieldsAcc([]))
  }

  /** `MultipleFieldsError::add`: exactly one more entry, at the end, with the one-segment
      path `[loc]`; the existing entries are untouched. */
  function Add<T>(e: MultipleFieldsError<T>, err: T, loc: string): (r: MultipleFieldsError<T>)
    ensures |Entries(r)| == |Entries(e)| + 1
    ensures Entries(r)[..|Entries(e)|] == Entries(e)
    ensures Entries(r)[|Entries(e)|] == WithPath([loc], err)
  {
    MultipleFieldsError(AddField(e.fields, err, loc))
  }

  /** `MultipleFieldsError::nest`: the parent's entries, untouched, followed by every entry
      of `other` in `other`'s order, each with `loc` pushed onto the end of its path. */
  function Nest<T>(e: MultipleFieldsError<T>, other: MultipleFieldsError<T>, loc: string): (r: MultipleFieldsError<T>)
    ensures |Entries(r)| == |Entries(e)| + |Entries(other)|
    ensures Entries(r)[..|Entries(e)|] == Entries(e)
    ensures forall i :: 0 <= i < |Entries(other)| ==>
              Entries(r)[|Entries(e)| + i] == WithPath(Entries(other)[i].path + [loc], Entries(other)[i].value)
    ensures Entries(r) == Entries(e) + NestedEntries(Entries(other), loc)
  {
    MultipleFieldsError(NestFields(e.fields, other.fields, loc))
  }

  /** `MultipleFieldsError::nest_if_err`: a success value is passed on and the accumulator
      is left alone; a failed child accumulator is nested at `loc` and the value is absent. */
  function NestIfErr<T, U>(e: MultipleFieldsError<T>, result: Result<U, MultipleFieldsError<T>>, loc: string)
    : (r: (Option<U>, MultipleFieldsError<T>))
    ensures r.0.Some? <==> result.Ok?
    ensures result.Ok? ==> r.0 == Some(result.value) && r.1 == e
    ensures result.Err? ==> Entries(r.1) == Entries(e) + NestedEntries(Entries(result.error), loc)
  {
    match result
    case Ok(value) => (Some(value), e)
    case Err(err) => (None, Nest(e, err, loc))
  }

  /** `MultipleFieldsError::result`: success exactly when nothing was recorded, otherwise
      the accumulator itself is the error. */
  function AsResult<T>(e: MultipleFieldsError<T>): (r: Result<(), MultipleFieldsError<T>>)
    ensures r.Ok? <==> Entries(e) == []
    ensures r.Err? ==> r.error == e
  {
    if |e.fields.paths| == 0 then Ok(()) else Err(e)
  }

  /** `MultipleFieldsError::add_if_none`: one `MissingFieldError` at `loc` exactly when the
      option is absent; otherwise the accumulator comes back unchanged. */
  function AddIfNone<U>(e: MultipleFieldsError<MissingFieldError>, option: Option<U>, loc: string)
    : (r: MultipleFieldsError<MissingFieldError>)
    ensures option.Some? ==> r == e
    ensures option.None? ==> Entries(r) == Entries(e) + [WithPath([loc], MissingFieldError)]
  {
    if option.None? then Add(e, MissingFieldError, loc) else e
  }

  /** `[&str]::join`: the segments with `sep` between consecutive ones, in stored order, so
      the rendering starts with the first stored segment (`JoinSnoc` adds that it ends with
      the last). */
  function Join(segments: seq<string>, sep: string): (r: string)
    ensures |segments| == 0 ==> r == ""
    ensures |segments| > 0 ==> segments[0] <= r
  {
    if |segments| == 0 then ""
    else if |segments| == 1 then segments[0]
    else segments[0] + sep + Join(segments[1..], sep)
  }

  /** Joining after pushing one more segment appends the separator and that segment. */
  lemma {:induction false} JoinSnoc(segments: seq<string>, last: string, sep: string)
    requires |segments| > 0
    ensures Join(segments + [last], sep) == Join(segments, sep) + sep + last
  {
    if |segments| == 1 {
      assert segments + [last] == [segments[0], last];
    } else {
      assert (segments + [last])[1..] == segments[1..] + [last];
      JoinSnoc(segments[1..], last, sep);
    }
  }

  /** `FieldError<T>`: one rendered report item. */
  datatype FieldError<T> = FieldError(path: string, main: T)

  /** `MultipleFieldsError::into_diagnostic`: one item per entry, in entry order, whose path
      is the stored segments joined with "." as stored (leaf first, no reversal). */
  function IntoDiagnostic<T>(e: MultipleFieldsError<T>): (items: seq<FieldError<T>>)
    ensures |items| == |Entries(e)|
    ensures forall i :: 0 <= i < |items| ==> items[i] == FieldError(Join(Entries(e)[i].path, "."), Entries(e)[i].value)
  {
    seq(|e.fields.paths|, i requires 0 <= i < |e.fields.paths| =>
      FieldError(Join(e.fields.paths[i].path, "."), e.fields.paths[i].value))
  }

  /** Every accumulator the crate's operations build is well formed: `new` starts with no
      entries, `add` records a one-segment path, and `nest` pushes a segment onto every
      child path, whatever the child holds. */
  lemma WellFormedPreserved<T>(e: MultipleFieldsError<T>, child: MultipleFieldsError<T>, err: T, loc: string)
    requires WellFormed(e)
    ensures WellFormed(New<T>())
    ensures WellFormed(Add(e, err, loc))
    ensures WellFormed(Nest(e, child, loc))
  {
  }

  /** Rendering after a nest: the parent's items come first unchanged, and each child item
      reappears with ".loc" appended to its rendered path, so the outer field name is
      printed last. */
  lemma DiagnosticOfNest<T>(e: MultipleFieldsError<T>, child: MultipleFieldsError<T>, loc: string)
    requires WellFormed(child)
    ensures var d := IntoDiagnostic(Nest(e, child, loc));
            var c := IntoDiagnostic(child);
            && |d| == |IntoDiagnostic(e)| + |c|
            && d[..|Entries(e)|] == IntoDiagnostic(e)
            && forall i :: 0 <= i < |c| ==> d[|Entries(e)| + i] == FieldError(c[i].path + "." + loc, c[i].main)
  {
    var n := Nest(e, child, loc);
    var d := IntoDiagnostic(n);
    var c := IntoDiagnostic(child);
    forall i | 0 <= i < |c|
      ensures d[|Entries(e)| + i] == FieldError(c[i].path + "." + loc, c[i].main)
    {
      JoinSnoc(Entries(child)[i].path, loc, ".");
    }
  }

  /** The leaf-first quirk, concretely: `foo_env` reported inside `nested` renders as
      "foo_env.nested", not "nested.foo_env". */
  lemma NestedPathRendersLeafFirst<T>(err: T)
    ensures IntoDiagnostic(Nest(New(), Add(New(), err, "foo_env"), "nested")) == [FieldError("foo_env.nested", err)]
  {
    var child := Add(New(), err, "foo_env");
    assert Entries(child) == [WithPath(["foo_env"], err)];
    var n := Nest(New(), child, "nested");
    assert ["foo_env"] + ["nested"] == ["foo_env", "nested"];
    assert Entries(n) == [WithPath(["foo_env", "nested"], err)];
    assert Join(["foo_env", "nested"], ".") == "foo_env" + "." + "nested";
    var d := IntoDiagnostic(n);
    assert |d| == 1 && d[0] == FieldError("foo_env.nested", err);
  }

  /** `CompleteError`: a whole nested value is missing (`MissingSelf`), or some of its
      fields are (`MissingFields`). */
  datatype CompleteError = MissingSelf | MissingFields(acc: MultipleFieldsError<MissingFieldError>)

  /** `ResultExt::nest_if_err` for a nested layer's `complete` result: success passes the
      value on and leaves `errors` alone; `MissingSelf` becomes exactly one entry at `loc`;
      `MissingFields(child)` nests every entry of `child` at `loc`. Whenever the child
      reports anything, the parent's accumulator grows. */
  function CompleteNestIfErr<T>(result: Result<T, CompleteError>, errors: MultipleFieldsError<MissingFieldError>, loc: string)
    : (r: (Option<T>, MultipleFieldsError<MissingFieldError>))
    ensures r.0.Some? <==> result.Ok?
    ensures result.Ok? ==> r.0 == Some(result.value) && r.1 == errors
    ensures result == Err(MissingSelf) ==> Entries(r.1) == Entries(errors) + [WithPath([loc], MissingFieldError)]
    ensures result.Err? && result.error.MissingFields? ==>
              Entries(r.1) == Entries(errors) + NestedEntries(Entries(result.error.acc), loc)
    ensures result.Err? && (result.error.MissingSelf? || Entries(result.error.acc) != []) ==>
              |Entries(r.1)| > |Entries(errors)|
  {
    match result
    case Ok(value) => (Some(value), errors)
    case Err(MissingFields(acc)) => (None, Nest(errors, acc, loc))
    case Err(MissingSelf) => (None, Add(errors, MissingFieldError, loc))
  }
}

/** Model of sweetenFields (logger.go): turning a loosely typed argument list into an ordered
    list of structured fields, with side diagnostics for malformed input. */
module Sweetener {

  const OddNumberErrMsg := "Ignored key without a value."
  const NonStringKeyErrMsg := "Ignored key-value pairs with non-string keys."
  const MultipleErrMsg := "Multiple errors without a key."

  /** One element of an []interface{} argument list, classified by the type tests the sweetener
      performs. The payloads are opaque identities of values the model does not look into. */
  datatype Arg =
    | FieldArg(id: nat)         // an already built zap.Field
    | ErrorArg(id: nat)         // a value implementing error
    | StringArg(s: string)      // a Go string
    | OtherArg(id: nat)         // any other value

  /** A structured field handed to the sink. */
  datatype Field =
    | Prebuilt(arg: Arg)                  // a zap.Field passed through unchanged
    | ErrorField(err: Arg)                // zap.Error(err)
    | AnyField(key: string, value: Arg)   // zap.Any(key, value)

  /** A key/value pair whose key is not a string, with the key's index in the argument list. */
  datatype InvalidPair = InvalidPair(position: nat, key: Arg, value: Arg)

  /** A side diagnostic the sweetener logs at Error level. */
  datatype Diagnostic =
    | MultipleErrors(err: Arg)
    | DanglingKey(ignored: Arg)
    | NonStringKeys(invalid: seq<InvalidPair>)
  {
    function Message(): string {
      match this
      case MultipleErrors(_) => MultipleErrMsg
      case DanglingKey(_) => OddNumberErrMsg
      case NonStringKeys(_) => NonStringKeyErrMsg
    }

    /** Diagnostics are emitted in this order of kinds. */
    function Rank(): nat {
      match this
      case MultipleErrors(_) => 0
      case DanglingKey(_) => 1
      case NonStringKeys(_) => 2
    }
  }

  /** What the scan loop accumulates: fields, diagnostics emitted during the scan, and invalid pairs. */
  datatype Scanned = Scanned(fields: seq<Field>, diagnostics: seq<Diagnostic>, invalid: seq<InvalidPair>)

  /** What sweetenFields returns, together with every diagnostic it logs, in order. */
  datatype Sweetened = Sweetened(fields: seq<Field>, diagnostics: seq<Diagnostic>)

  function WithField(f: Field, r: Scanned): Scanned {
    Scanned([f] + r.fields, r.diagnostics, r.invalid)
  }

  function WithDiagnostic(d: Diagnostic, r: Scanned): Scanned {
    Scanned(r.fields, [d] + r.diagnostics, r.invalid)
  }

  function WithInvalid(p: InvalidPair, r: Scanned): Scanned {
    Scanned(r.fields, r.diagnostics, [p] + r.invalid)
  }

  /** Reference definition of the scan from index i, with seenError telling whether an error was
      already turned into a field. Each element consumes one or two arguments, so the fields and the
      invalid pairs together never outnumber the arguments scanned. */
  function Scan(args: seq<Arg>, i: nat, seenError: bool): (r: Scanned)
    requires i <= |args|
    ensures |r.fields| + |r.invalid| <= |args| - i
    ensures |r.diagnostics| <= |args| - i
    decreases |args| - i
  {
    if i == |args| then Scanned([], [], [])
    else if args[i].FieldArg? then WithField(Prebuilt(args[i]), Scan(args, i + 1, seenError))
    else if args[i].ErrorArg? then
      if !seenError then WithField(ErrorField(args[i]), Scan(args, i + 1, true))
      else WithDiagnostic(MultipleErrors(args[i]), Scan(args, i + 1, true))
    else if i == |args| - 1 then Scanned([], [DanglingKey(args[i])], [])
    else if args[i].StringArg? then WithField(AnyField(args[i].s, args[i + 1]), Scan(args, i + 2, seenError))
    else WithInvalid(InvalidPair(i, args[i], args[i + 1]), Scan(args, i + 2, seenError))
  }

  /** The aggregated non-string-key diagnostic, present only when some pair was invalid. */
  function Aggregate(invalid: seq<InvalidPair>): seq<Diagnostic> {
    if |invalid| > 0 then [NonStringKeys(invalid)] else []
  }

  /** Reference definition of sweetenFields: the fields, and the diagnostics in emission order. */
  function Sweeten(args: seq<Arg>): Sweetened {
    if |args| == 0 then Sweetened([], [])
    else
      var s := Scan(args, 0, false);
      Sweetened(s.fields, s.diagnostics + Aggregate(s.invalid))
  }

  /** Moving one element from the front of the rest of a sequence to the end of its accumulated prefix. */
  lemma ShiftOne<T>(acc: seq<T>, x: T, rest: seq<T>)
    ensures (acc + [x]) + rest == acc + ([x] + rest)
  {
  }

  /** sweetenFields: a left-to-right scan with a hand-managed index. */
  method SweetenFields(args: seq<Arg>) returns (fields: seq<Field>, diagnostics: seq<Diagnostic>)
    ensures Sweetened(fields, diagnostics) == Sweeten(args)
    ensures |fields| <= |args|
    ensures args == [] ==> fields == [] && diagnostics == []
  {
    if |args| == 0 {
      return [], [];
    }
    fields := [];
    diagnostics := [];
    var invalid: seq<InvalidPair> := [];
    var seenError := false;
    ghost var whole := Scan(args, 0, false);
    var i := 0;
    while i < |args|
      invariant i <= |args|
      invariant fields + Scan(args, i, seenError).fields == whole.fields
      invariant diagnostics + Scan(args, i, seenError).diagnostics == whole.diagnostics
      invariant invalid + Scan(args, i, seenError).invalid == whole.invalid
      decreases |args| - i
    {
      ghost var rest := Scan(args, i, seenError);
      if args[i].FieldArg? {
        // A structured field: keep it and move on.
        assert rest == WithField(Prebuilt(args[i]), Scan(args, i + 1, seenError));
        ShiftOne(fields, Prebuilt(args[i]), Scan(args, i + 1, seenError).fields);
        fields := fields + [Prebuilt(args[i])];
        i := i + 1;
        continue;
      }
      if args[i].ErrorArg? {
        // An error: the first becomes a field, each later one a diagnostic.
        if !seenError {
          assert rest == WithField(ErrorField(args[i]), Scan(args, i + 1, true));
          ShiftOne(fields, ErrorField(args[i]), Scan(args, i + 1, true).fields);
          seenError := true;
          fields := fields + [ErrorField(args[i])];
        } else {
          assert rest == WithDiagnostic(MultipleErrors(args[i]), Scan(args, i + 1, true));
          ShiftOne(diagnostics, MultipleErrors(args[i]), Scan(args, i + 1, true).diagnostics);
          diagnostics := diagnostics + [MultipleErrors(args[i])];
        }
        i := i + 1;
        continue;
      }
      if i == |args| - 1 {
        // A dangling key: report it and stop.
        assert rest == Scanned([], [DanglingKey(args[i])], []);
        assert fields == whole.fields && invalid == whole.invalid;
        diagnostics := diagnostics + [DanglingKey(args[i])];
        break;
      }
      if !args[i].StringArg? {
        assert rest == WithInvalid(InvalidPair(i, args[i], args[i + 1]), Scan(args, i + 2, seenError));
        ShiftOne(invalid, InvalidPair(i, args[i], args[i + 1]), Scan(args, i + 2, seenError).invalid);
        invalid := invalid + [InvalidPair(i, args[i], args[i + 1])];
      } else {
        assert rest == WithField(AnyField(args[i].s, args[i + 1]), Scan(args, i + 2, seenError));
        ShiftOne(fields, AnyField(args[i].s, args[i + 1]), Scan(args, i + 2, seenError).fields);
        fields := fields + [AnyField(args[i].s, args[i + 1])];
      }
      i := i + 2;
    }
    assert fields == whole.fields && diagnostics == whole.diagnostics && invalid == whole.invalid by {
      if i == |args| {
        assert Scan(args, i, seenError) == Scanned([], [], []);
        assert fields + [] == fields && diagnostics + [] == diagnostics && invalid + [] == invalid;
      }
    }
    if |invalid| > 0 {
      diagnostics := diagnostics + [NonStringKeys(invalid)];
    }
  }

  // ---------------------------------------------------------------------------------------------
  // Properties of the reference scan.

  /** The indices the scan loop stops at: after a field or an error it advances by one, after a
      key/value pair by two, and a dangling key is the last stop. */
  ghost function Visited(args: seq<Arg>, i: nat): (vs: seq<nat>)
    requires i <= |args|
    decreases |args| - i
  {
    if i == |args| then []
    else if args[i].FieldArg? || args[i].ErrorArg? then [i] + Visited(args, i + 1)
    else if i == |args| - 1 then [i]
    else [i] + Visited(args, i + 2)
  }

  /** The field the element at index p can give rise to. */
  ghost predicate FieldFrom(args: seq<Arg>, p: nat, f: Field)
    requires p < |args|
  {
    match args[p]
    case FieldArg(_) => f == Prebuilt(args[p])
    case ErrorArg(_) => f == ErrorField(args[p])
    case StringArg(key) => p + 1 < |args| && f == AnyField(key, args[p + 1])
    case OtherArg(_) => false
  }

  /** pos gives, for each field, the strictly increasing index of the argument it came from. */
  ghost predicate Origin(args: seq<Arg>, fields: seq<Field>, pos: seq<nat>) {
    && |pos| == |fields|
    && (forall k :: 0 <= k < |pos| ==> pos[k] < |args| && FieldFrom(args, pos[k], fields[k]))
    && (forall k, l :: 0 <= k < l < |pos| ==> pos[k] < pos[l])
  }

  /** Prepending a field built from an index below all the others keeps an origin assignment. */
  lemma OriginCons(args: seq<Arg>, f: Field, fields: seq<Field>, p: nat, pos: seq<nat>)
    requires Origin(args, fields, pos)
    requires p < |args| && FieldFrom(args, p, f)
    requires forall k :: 0 <= k < |pos| ==> p < pos[k]
    ensures Origin(args, [f] + fields, [p] + pos)
  {
  }

  /** Every field of the scan from i comes from an argument at index i or later, in input order. */
  lemma {:induction false} ScanOrigin(args: seq<Arg>, i: nat, seenError: bool) returns (pos: seq<nat>)
    requires i <= |args|
    ensures Origin(args, Scan(args, i, seenError).fields, pos)
    ensures forall k :: 0 <= k < |pos| ==> i <= pos[k]
    decreases |args| - i
  {
    if i == |args| {
      pos := [];
    } else if args[i].FieldArg? {
      var tail := ScanOrigin(args, i + 1, seenError);
      OriginCons(args, Prebuilt(args[i]), Scan(args, i + 1, seenError).fields, i, tail);
      pos := [i] + tail;
    } else if args[i].ErrorArg? {
      var tail := ScanOrigin(args, i + 1, true);
      if seenError {
        pos := tail;
      } else {
        OriginCons(args, ErrorField(args[i]), Scan(args, i + 1, true).fields, i, tail);
        pos := [i] + tail;
      }
    } else if i == |args| - 1 {
      pos := [];
    } else {
      var tail := ScanOrigin(args, i + 2, seenError);
      if args[i].StringArg? {
        OriginCons(args, AnyField(args[i].s, args[i + 1]), Scan(args, i + 2, seenError).fields, i, tail);
        pos := [i] + tail;
      } else {
        pos := tail;
      }
    }
  }

  /** Structured fields, errors and string-keyed pairs appear in input order, each one built from
      the argument it came from; a non-string key never yields a field. */
  lemma SweetenKeepsInputOrder(args: seq<Arg>)
    ensures exists pos :: Origin(args, Sweeten(args).fields, pos)
  {
    if |args| > 0 {
      var pos := ScanOrigin(args, 0, false);
      assert Origin(args, Sweeten(args).fields, pos);
    } else {
      assert Origin(args, Sweeten(args).fields, []);
    }
  }

  /** The output never has more fields than the input has elements, and empty input yields neither
      fields nor diagnostics. */
  lemma SweetenBounds(args: seq<Arg>)
    ensures |Sweeten(args).fields| <= |args|
    ensures |Sweeten(args).diagnostics| <= |args|
    ensures args == [] ==> Sweeten(args) == Sweetened([], [])
  {
  }

  /** The visited indices holding an error value, in order. */
  ghost function ErrorPositions(args: seq<Arg>, vs: seq<nat>): (eps: seq<nat>)
    ensures forall k :: 0 <= k < |eps| ==> eps[k] < |args| && args[eps[k]].ErrorArg?
  {
    if vs == [] then []
    else (if vs[0] < |args| && args[vs[0]].ErrorArg? then [vs[0]] else []) + ErrorPositions(args, vs[1..])
  }

  /** The "multiple errors" diagnostics for the errors at the given indices. */
  ghost function MultipleErrorsAt(args: seq<Arg>, ps: seq<nat>): (ds: seq<Diagnostic>)
    requires forall k :: 0 <= k < |ps| ==> ps[k] < |args|
    ensures |ds| == |ps|
  {
    if ps == [] then [] else [MultipleErrors(args[ps[0]])] + MultipleErrorsAt(args, ps[1..])
  }

  /** The error fields among some fields, in order. */
  function ErrorFieldsOf(fs: seq<Field>): seq<Field> {
    if fs == [] then [] else (if fs[0].ErrorField? then [fs[0]] else []) + ErrorFieldsOf(fs[1..])
  }

  /** The "multiple errors" diagnostics among some diagnostics, in order. */
  function MultipleErrorsOf(ds: seq<Diagnostic>): seq<Diagnostic> {
    if ds == [] then [] else (if ds[0].MultipleErrors? then [ds[0]] else []) + MultipleErrorsOf(ds[1..])
  }

  lemma {:induction false} MultipleErrorsOfAppend(a: seq<Diagnostic>, b: seq<Diagnostic>)
    ensures MultipleErrorsOf(a + b) == MultipleErrorsOf(a) + MultipleErrorsOf(b)
  {
    if a != [] {
      assert (a + b)[1..] == a[1..] + b;
      MultipleErrorsOfAppend(a[1..], b);
    } else {
      assert a + b == b;
    }
  }

  /** One step of each of the error-related views. */
  lemma ErrorViewsCons(args: seq<Arg>, p: nat, vs: seq<nat>, f: Field, fs: seq<Field>, d: Diagnostic, ds: seq<Diagnostic>)
    ensures ErrorPositions(args, [p] + vs)
            == (if p < |args| && args[p].ErrorArg? then [p] else []) + ErrorPositions(args, vs)
    ensures ErrorFieldsOf([f] + fs) == (if f.ErrorField? then [f] else []) + ErrorFieldsOf(fs)
    ensures MultipleErrorsOf([d] + ds) == (if d.MultipleErrors? then [d] else []) + MultipleErrorsOf(ds)
  {
  }

  /** The error positions still to be reported as diagnostics: all of them once an error field
      exists, all but the first otherwise. */
  function Later(eps: seq<nat>, seenError: bool): seq<nat> {
    if seenError || eps == [] then eps else eps[1..]
  }

  /** From index i, with seenError telling whether an error already became a field: the first error
      the scan meets becomes the one error field, unless one exists already. */
  lemma {:induction false} ScanErrorField(args: seq<Arg>, i: nat, seenError: bool)
    requires i <= |args|
    ensures var eps := ErrorPositions(args, Visited(args, i));
            ErrorFieldsOf(Scan(args, i, seenError).fields)
            == if seenError || eps == [] then [] else [ErrorField(args[eps[0]])]
    decreases |args| - i
  {
    if i == |args| {
      assert Visited(args, i) == [];
    } else {
      VisitedStep(args, i);
      var r := Scan(args, i, seenError);
      if args[i].FieldArg? || args[i].ErrorArg? {
        var seen' := seenError || args[i].ErrorArg?;
        var tail := Scan(args, i + 1, seen');
        var teps := ErrorPositions(args, Visited(args, i + 1));
        ScanErrorField(args, i + 1, seen');
        if args[i].FieldArg? {
          ErrorViewsCons(args, i, Visited(args, i + 1), Prebuilt(args[i]), tail.fields, MultipleErrors(args[i]), []);
          assert ErrorPositions(args, Visited(args, i)) == teps;
          assert r.fields == [Prebuilt(args[i])] + tail.fields;
        } else if seenError {
          assert r.fields == tail.fields;
        } else {
          ErrorViewsCons(args, i, Visited(args, i + 1), ErrorField(args[i]), tail.fields, MultipleErrors(args[i]), []);
          assert ErrorPositions(args, Visited(args, i)) == [i] + teps;
          assert r.fields == [ErrorField(args[i])] + tail.fields;
        }
      } else if i == |args| - 1 {
        ErrorViewsCons(args, i, [], Prebuilt(args[i]), [], DanglingKey(args[i]), []);
        assert ErrorPositions(args, Visited(args, i)) == [];
        assert r.fields == [];
      } else {
        var tail := Scan(args, i + 2, seenError);
        ScanErrorField(args, i + 2, seenError);
        if args[i].StringArg? {
          ErrorViewsCons(args, i, Visited(args, i + 2), AnyField(args[i].s, args[i + 1]), tail.fields, DanglingKey(args[i]), []);
          assert ErrorPositions(args, Visited(args, i)) == ErrorPositions(args, Visited(args, i + 2));
          assert r.fields == [AnyField(args[i].s, args[i + 1])] + tail.fields;
        } else {
          ErrorViewsCons(args, i, Visited(args, i + 2), Prebuilt(args[i]), [], DanglingKey(args[i]), []);
          assert ErrorPositions(args, Visited(args, i)) == ErrorPositions(args, Visited(args, i + 2));
          assert r.fields == tail.fields;
        }
      }
    }
  }

  /** From index i: every error the scan meets after the one that becomes a field gives one
      "multiple errors" diagnostic, in order. */
  lemma {:induction false} ScanMultipleErrors(args: seq<Arg>, i: nat, seenError: bool)
    requires i <= |args|
    ensures MultipleErrorsOf(Scan(args, i, seenError).diagnostics)
            == MultipleErrorsAt(args, Later(ErrorPositions(args, Visited(args, i)), seenError))
    decreases |args| - i
  {
    if i == |args| {
      assert Visited(args, i) == [];
    } else {
      VisitedStep(args, i);
      var r := Scan(args, i, seenError);
      if args[i].FieldArg? || args[i].ErrorArg? {
        var seen' := seenError || args[i].ErrorArg?;
        var tail := Scan(args, i + 1, seen');
        var teps := ErrorPositions(args, Visited(args, i + 1));
        ScanMultipleErrors(args, i + 1, seen');
        ErrorViewsCons(args, i, Visited(args, i + 1), Prebuilt(args[i]), [], MultipleErrors(args[i]), tail.diagnostics);
        if args[i].FieldArg? {
          assert ErrorPositions(args, Visited(args, i)) == teps;
          assert r.diagnostics == tail.diagnostics;
        } else {
          assert ErrorPositions(args, Visited(args, i)) == [i] + teps;
          assert ([i] + teps)[1..] == teps;
          if seenError {
            assert r.diagnostics == [MultipleErrors(args[i])] + tail.diagnostics;
            assert MultipleErrorsAt(args, [i] + teps) == [MultipleErrors(args[i])] + MultipleErrorsAt(args, teps);
          } else {
            assert r.diagnostics == tail.diagnostics;
          }
        }
      } else if i == |args| - 1 {
        ErrorViewsCons(args, i, [], Prebuilt(args[i]), [], DanglingKey(args[i]), []);
        assert ErrorPositions(args, Visited(args, i)) == [];
        assert r.diagnostics == [DanglingKey(args[i])];
      } else {
        var tail := Scan(args, i + 2, seenError);
        ScanMultipleErrors(args, i + 2, seenError);
        ErrorViewsCons(args, i, Visited(args, i + 2), Prebuilt(args[i]), [], DanglingKey(args[i]), []);
        assert ErrorPositions(args, Visited(args, i)) == ErrorPositions(args, Visited(args, i + 2));
        assert r.diagnostics == tail.diagnostics;
      }
    }
  }

  /** Only the first error the scan meets becomes a field; each later one is dropped from the fields
      and reported by exactly one "multiple errors" diagnostic, in order. */
  lemma SweetenErrors(args: seq<Arg>)
    ensures var r := Sweeten(args);
            var eps := ErrorPositions(args, Visited(args, 0));
            && (eps == [] ==> ErrorFieldsOf(r.fields) == [] && MultipleErrorsOf(r.diagnostics) == [])
            && (eps != [] ==>
                  && ErrorFieldsOf(r.fields) == [ErrorField(args[eps[0]])]
                  && MultipleErrorsOf(r.diagnostics) == MultipleErrorsAt(args, eps[1..])
                  && |MultipleErrorsOf(r.diagnostics)| == |eps| - 1)
  {
    if |args| > 0 {
      var s := Scan(args, 0, false);
      ScanErrorField(args, 0, false);
      ScanMultipleErrors(args, 0, false);
      MultipleErrorsOfAppend(s.diagnostics, Aggregate(s.invalid));
      assert MultipleErrorsOf(Aggregate(s.invalid)) == [] by {
        if |s.invalid| > 0 {
          assert Aggregate(s.invalid)[1..] == [];
        }
      }
      assert s.diagnostics + [] == s.diagnostics;
    }
  }

  /** The scan stops on the last element as a key: a string or other value with nothing after it. */
  ghost predicate EndsOnDanglingKey(args: seq<Arg>, vs: seq<nat>) {
    && |vs| > 0 && |args| > 0
    && vs[|vs| - 1] == |args| - 1
    && (args[|args| - 1].StringArg? || args[|args| - 1].OtherArg?)
  }

  /** The "dangling key" diagnostics among some diagnostics, in order. */
  function DanglingOf(ds: seq<Diagnostic>): seq<Diagnostic> {
    if ds == [] then [] else (if ds[0].DanglingKey? then [ds[0]] else []) + DanglingOf(ds[1..])
  }

  lemma {:induction false} DanglingOfAppend(a: seq<Diagnostic>, b: seq<Diagnostic>)
    ensures DanglingOf(a + b) == DanglingOf(a) + DanglingOf(b)
  {
    if a != [] {
      assert (a + b)[1..] == a[1..] + b;
      DanglingOfAppend(a[1..], b);
    } else {
      assert a + b == b;
    }
  }

  /** During the scan only "multiple errors" diagnostics are emitted, except for a dangling key,
      which is reported last. */
  ghost predicate ScanShaped(ds: seq<Diagnostic>) {
    forall k :: 0 <= k < |ds| ==> ds[k].MultipleErrors? || (ds[k].DanglingKey? && k == |ds| - 1)
  }

  lemma {:induction false} ScanDiagnosticsShape(args: seq<Arg>, i: nat, seenError: bool)
    requires i <= |args|
    ensures ScanShaped(Scan(args, i, seenError).diagnostics)
    decreases |args| - i
  {
    if i < |args| {
      var ds := Scan(args, i, seenError).diagnostics;
      if args[i].FieldArg? || args[i].ErrorArg? {
        var seen' := seenError || args[i].ErrorArg?;
        ScanDiagnosticsShape(args, i + 1, seen');
        var td := Scan(args, i + 1, seen').diagnostics;
        if args[i].ErrorArg? && seenError {
          assert ds == [MultipleErrors(args[i])] + td;
          forall k | 0 < k < |ds|
            ensures ds[k].MultipleErrors? || (ds[k].DanglingKey? && k == |ds| - 1)
          {
            assert ds[k] == td[k - 1];
          }
        } else {
          assert ds == td;
        }
      } else if i < |args| - 1 {
        ScanDiagnosticsShape(args, i + 2, seenError);
        assert ds == Scan(args, i + 2, seenError).diagnostics;
      }
    }
  }

  /** One step of DanglingOf. */
  lemma DanglingOfCons(d: Diagnostic, ds: seq<Diagnostic>)
    ensures DanglingOf([d] + ds) == (if d.DanglingKey? then [d] else []) + DanglingOf(ds)
  {
  }

  /** Whether scan positions starting at i end on a dangling key depends on where they end. */
  lemma EndsStep(args: seq<Arg>, i: nat, tvs: seq<nat>)
    ensures EndsOnDanglingKey(args, [i] + tvs)
            == if tvs == [] then |args| > 0 && i == |args| - 1 && (args[i].StringArg? || args[i].OtherArg?)
               else EndsOnDanglingKey(args, tvs)
  {
  }

  /** The scan reports a dangling key exactly when it stops on one. */
  lemma {:induction false} ScanDangling(args: seq<Arg>, i: nat, seenError: bool)
    requires i <= |args|
    ensures DanglingOf(Scan(args, i, seenError).diagnostics)
            == if EndsOnDanglingKey(args, Visited(args, i)) then [DanglingKey(args[|args| - 1])] else []
    decreases |args| - i
  {
    if i == |args| {
      assert Visited(args, i) == [];
    } else {
      VisitedStep(args, i);
      var r := Scan(args, i, seenError);
      if args[i].FieldArg? || args[i].ErrorArg? {
        var seen' := seenError || args[i].ErrorArg?;
        var tail := Scan(args, i + 1, seen');
        ScanDangling(args, i + 1, seen');
        EndsStep(args, i, Visited(args, i + 1));
        if args[i].ErrorArg? && seenError {
          assert r == WithDiagnostic(MultipleErrors(args[i]), tail);
          DanglingOfCons(MultipleErrors(args[i]), tail.diagnostics);
        } else {
          assert r.diagnostics == tail.diagnostics;
        }
      } else if i == |args| - 1 {
        EndsStep(args, i, []);
        assert r == Scanned([], [DanglingKey(args[i])], []);
        DanglingOfCons(DanglingKey(args[i]), []);
      } else {
        ScanDangling(args, i + 2, seenError);
        EndsStep(args, i, Visited(args, i + 2));
        assert r.diagnostics == Scan(args, i + 2, seenError).diagnostics;
      }
    }
  }

  /** A lone trailing key is reported by exactly one "ignored key" diagnostic, exactly when the scan
      reaches the last element as a key, and nothing but the aggregated non-string-key diagnostic
      comes after it. */
  lemma SweetenDanglingKey(args: seq<Arg>)
    ensures DanglingOf(Sweeten(args).diagnostics)
            == (if EndsOnDanglingKey(args, Visited(args, 0)) then [DanglingKey(args[|args| - 1])] else [])
    ensures var ds := Sweeten(args).diagnostics;
            forall k, l :: 0 <= k < l < |ds| && ds[k].DanglingKey? ==> ds[l].NonStringKeys?
  {
    if |args| > 0 {
      var s := Scan(args, 0, false);
      var sd, agg := s.diagnostics, Aggregate(s.invalid);
      ScanDangling(args, 0, false);
      DanglingOfAppend(sd, agg);
      assert DanglingOf(agg) == [] by {
        if |s.invalid| > 0 {
          assert agg[1..] == [];
        }
      }
      assert sd + [] == sd;
      var ds := sd + agg;
      ScanDiagnosticsShape(args, 0, false);
      forall k, l | 0 <= k < l < |ds| && ds[k].DanglingKey?
        ensures ds[l].NonStringKeys?
      {
        assert k < |sd| && ds[k] == sd[k];
        assert k == |sd| - 1;
        assert ds[l] == agg[l - |sd|];
      }
    }
  }

  /** The invalid pairs along the visited indices: each non-string key that has a value after it,
      with its index, the key and the value. */
  ghost function InvalidAlong(args: seq<Arg>, vs: seq<nat>): seq<InvalidPair> {
    if vs == [] then []
    else
      (if vs[0] + 1 < |args| && args[vs[0]].OtherArg? then [InvalidPair(vs[0], args[vs[0]], args[vs[0] + 1])] else [])
      + InvalidAlong(args, vs[1..])
  }

  /** One step of the scan positions: the index itself, then the positions from the next element. */
  lemma VisitedStep(args: seq<Arg>, i: nat)
    requires i < |args|
    ensures Visited(args, i)
            == [i] + (if args[i].FieldArg? || args[i].ErrorArg? then Visited(args, i + 1)
                      else if i == |args| - 1 then []
                      else Visited(args, i + 2))
  {
  }

  /** One step of the invalid pairs along some scan positions. */
  lemma InvalidAlongCons(args: seq<Arg>, p: nat, vs: seq<nat>)
    ensures InvalidAlong(args, [p] + vs)
            == (if p + 1 < |args| && args[p].OtherArg? then [InvalidPair(p, args[p], args[p + 1])] else [])
               + InvalidAlong(args, vs)
  {
  }

  /** The scan collects exactly the pairs whose key is not a string, in order, with their indices. */
  lemma {:induction false} ScanInvalid(args: seq<Arg>, i: nat, seenError: bool)
    requires i <= |args|
    ensures Scan(args, i, seenError).invalid == InvalidAlong(args, Visited(args, i))
    decreases |args| - i
  {
    if i < |args| {
      VisitedStep(args, i);
      if args[i].FieldArg? || args[i].ErrorArg? {
        InvalidAlongCons(args, i, Visited(args, i + 1));
        ScanInvalid(args, i + 1, seenError || args[i].ErrorArg?);
      } else if i == |args| - 1 {
        InvalidAlongCons(args, i, []);
      } else {
        InvalidAlongCons(args, i, Visited(args, i + 2));
        ScanInvalid(args, i + 2, seenError);
      }
    }
  }

  /** The "non-string keys" diagnostics among some diagnostics, in order. */
  function NonStringKeysOf(ds: seq<Diagnostic>): seq<Diagnostic> {
    if ds == [] then [] else (if ds[0].NonStringKeys? then [ds[0]] else []) + NonStringKeysOf(ds[1..])
  }

  lemma {:induction false} NonStringKeysOfScan(args: seq<Arg>, i: nat, seenError: bool)
    requires i <= |args|
    ensures NonStringKeysOf(Scan(args, i, seenError).diagnostics) == []
  {
    var ds := Scan(args, i, seenError).diagnostics;
    ScanDiagnosticsShape(args, i, seenError);
    forall k | 0 <= k < |ds|
      ensures !ds[k].NonStringKeys?
    {
      assert ds[k].MultipleErrors? || ds[k].DanglingKey?;
    }
    NoNonStringKeys(ds);
  }

  lemma {:induction false} NoNonStringKeys(ds: seq<Diagnostic>)
    requires forall k :: 0 <= k < |ds| ==> !ds[k].NonStringKeys?
    ensures NonStringKeysOf(ds) == []
  {
    if ds != [] {
      NoNonStringKeys(ds[1..]);
    }
  }

  lemma {:induction false} NonStringKeysOfAppend(a: seq<Diagnostic>, b: seq<Diagnostic>)
    ensures NonStringKeysOf(a + b) == NonStringKeysOf(a) + NonStringKeysOf(b)
  {
    if a != [] {
      assert (a + b)[1..] == a[1..] + b;
      NonStringKeysOfAppend(a[1..], b);
    } else {
      assert a + b == b;
    }
  }

  /** Pairs with non-string keys are reported together, with their indices, by one aggregated
      diagnostic that comes last, and only if there was at least one such pair. */
  lemma SweetenNonStringKeys(args: seq<Arg>)
    ensures var ds := Sweeten(args).diagnostics;
            var inv := InvalidAlong(args, Visited(args, 0));
            && NonStringKeysOf(ds) == (if inv == [] then [] else [NonStringKeys(inv)])
            && (inv != [] ==> ds[|ds| - 1] == NonStringKeys(inv))
  {
    if |args| > 0 {
      var s := Scan(args, 0, false);
      ScanInvalid(args, 0, false);
      NonStringKeysOfScan(args, 0, false);
      NonStringKeysOfAppend(s.diagnostics, Aggregate(s.invalid));
      if |s.invalid| > 0 {
        assert Aggregate(s.invalid)[1..] == [];
      }
    }
  }

  /** Diagnostics come in a fixed order: every "multiple errors" first, then at most one "ignored
      key", then at most one aggregated "non-string keys". */
  lemma SweetenDiagnosticOrder(args: seq<Arg>)
    ensures var ds := Sweeten(args).diagnostics;
            forall k, l :: 0 <= k < l < |ds| ==> ds[k].Rank() <= ds[l].Rank() && !(ds[k].Rank() == ds[l].Rank() >= 1)
  {
    if |args| > 0 {
      var s := Scan(args, 0, false);
      var sd, agg := s.diagnostics, Aggregate(s.invalid);
      var ds := sd + agg;
      ScanDiagnosticsShape(args, 0, false);
      forall k, l | 0 <= k < l < |ds|
        ensures ds[k].Rank() <= ds[l].Rank() && !(ds[k].Rank() == ds[l].Rank() >= 1)
      {
        assert k < |sd| && ds[k] == sd[k];
        if l < |sd| {
          assert ds[l] == sd[l];
          assert sd[k].MultipleErrors?;
        } else {
          assert ds[l] == agg[l - |sd|];
        }
      }
    }
  }

  /** The fields the visited indices yield apart from errors: each structured field as it is, and each
      string key with the value after it. */
  ghost function KeptAlong(args: seq<Arg>, vs: seq<nat>): seq<Field> {
    if vs == [] then [] else KeptAt(args, vs[0]) + KeptAlong(args, vs[1..])
  }

  /** What the element at index p contributes to KeptAlong. */
  ghost function KeptAt(args: seq<Arg>, p: nat): seq<Field> {
    if p < |args| && args[p].FieldArg? then [Prebuilt(args[p])]
    else if p + 1 < |args| && args[p].StringArg? then [AnyField(args[p].s, args[p + 1])]
    else []
  }

  /** The fields other than the error field, in order. */
  function NonErrorFieldsOf(fs: seq<Field>): seq<Field> {
    if fs == [] then [] else (if fs[0].ErrorField? then [] else [fs[0]]) + NonErrorFieldsOf(fs[1..])
  }

  /** One step of NonErrorFieldsOf. */
  lemma NonErrorStep(fs: seq<Field>, f: Field)
    ensures NonErrorFieldsOf([f] + fs) == (if f.ErrorField? then [] else [f]) + NonErrorFieldsOf(fs)
  {
  }

  /** One step of KeptAlong. */
  lemma KeptAlongCons(args: seq<Arg>, p: nat, vs: seq<nat>)
    ensures KeptAlong(args, [p] + vs) == KeptAt(args, p) + KeptAlong(args, vs)
  {
  }

  lemma {:induction false} ScanKept(args: seq<Arg>, i: nat, seenError: bool)
    requires i <= |args|
    ensures NonErrorFieldsOf(Scan(args, i, seenError).fields) == KeptAlong(args, Visited(args, i))
    decreases |args| - i
  {
    if i == |args| {
      assert Visited(args, i) == [];
    } else {
      VisitedStep(args, i);
      var r := Scan(args, i, seenError);
      if args[i].FieldArg? || args[i].ErrorArg? {
        var seen' := seenError || args[i].ErrorArg?;
        var tail := Scan(args, i + 1, seen');
        ScanKept(args, i + 1, seen');
        KeptAlongCons(args, i, Visited(args, i + 1));
        if args[i].FieldArg? {
          assert KeptAt(args, i) == [Prebuilt(args[i])];
          assert r.fields == [Prebuilt(args[i])] + tail.fields;
          NonErrorStep(tail.fields, Prebuilt(args[i]));
        } else if !seenError {
          assert KeptAt(args, i) == [];
          assert r.fields == [ErrorField(args[i])] + tail.fields;
          NonErrorStep(tail.fields, ErrorField(args[i]));
        } else {
          assert KeptAt(args, i) == [];
          assert r.fields == tail.fields;
        }
      } else if i == |args| - 1 {
        KeptAlongCons(args, i, []);
        assert KeptAt(args, i) == [];
        assert r.fields == [];
      } else {
        var tail := Scan(args, i + 2, seenError);
        ScanKept(args, i + 2, seenError);
        KeptAlongCons(args, i, Visited(args, i + 2));
        if args[i].StringArg? {
          assert KeptAt(args, i) == [AnyField(args[i].s, args[i + 1])];
          assert r.fields == [AnyField(args[i].s, args[i + 1])] + tail.fields;
          NonErrorStep(tail.fields, AnyField(args[i].s, args[i + 1]));
        } else {
          assert KeptAt(args, i) == [];
          assert r.fields == tail.fields;
        }
      }
    }
  }

  /** Every structured field and every string-keyed pair the scan reaches is kept, in input order;
      together with SweetenErrors this accounts for every field. */
  lemma SweetenKeepsFieldsAndPairs(args: seq<Arg>)
    ensures NonErrorFieldsOf(Sweeten(args).fields) == KeptAlong(args, Visited(args, 0))
  {
    if |args| > 0 {
      ScanKept(args, 0, false);
    }
  }

  /** A message with well-formed context, key1, v1, key2, v2, gives the two pairs in order and no
      diagnostic. */
  lemma SweetenKeyValuePairs(key1: string, v1: Arg, key2: string, v2: Arg)
    ensures Sweeten([StringArg(key1), v1, StringArg(key2), v2])
            == Sweetened([AnyField(key1, v1), AnyField(key2, v2)], [])
  {
    var args := [StringArg(key1), v1, StringArg(key2), v2];
    assert Scan(args, 4, false) == Scanned([], [], []);
    assert Scan(args, 2, false) == WithField(AnyField(key2, v2), Scan(args, 4, false));
    assert Scan(args, 0, false) == WithField(AnyField(key1, v1), Scan(args, 2, false));
  }
}

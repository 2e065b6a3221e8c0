/** The normalized asset graph (src/internal/discovery/asset.go) and joins that emit its relations. */
module Discovery {
  import opened Wrappers

  const KUBERNETES := "kubernetes"
  const DATADOG := "datadog"

  /** ddService is the attribute the correlator reads, "" when absent. */
  datatype Asset = Asset(externalID: string, provider: string, kind: string, name: string, namespace: string,
                         tags: map<string, string>, ddService: string)

  datatype Relation = Relation(source: string, sourceProvider: string, target: string, targetProvider: string,
                               kind: string)

  datatype SyncState = Unset | OK | Partial | Failed | NotConfigured

  datatype ProviderStatus = ProviderStatus(state: SyncState, assetCount: nat, error: string)

  datatype Subgraph = Subgraph(assets: seq<Asset>, relations: seq<Relation>, status: ProviderStatus)

  /** `strings.Join(errors, "; ")`. */
  function JoinErrors(errors: seq<string>): string {
    if errors == [] then ""
    else if |errors| == 1 then errors[0]
    else errors[0] + "; " + JoinErrors(errors[1..])
  }

  /** One more error comes behind the others, after a semicolon. */
  lemma {:induction false} JoinErrorsSnoc(errors: seq<string>, e: string)
    ensures JoinErrors(errors + [e]) == if errors == [] then e else JoinErrors(errors) + "; " + e
  {
    if |errors| > 1 {
      JoinErrorsSnoc(errors[1..], e);
      assert (errors + [e])[1..] == errors[1..] + [e];
      Assoc(errors[0] + "; ", JoinErrors(errors[1..]) + "; ", e);
      Assoc(errors[0] + "; ", JoinErrors(errors[1..]), "; ");
    } else if |errors| == 1 {
      assert (errors + [e])[1..] == [e];
    }
  }

  /** A sweep that recorded a failure is partial, and says which ones. */
  lemma SweepStatusExact(errors: seq<string>)
    ensures errors == [] ==> SweepStatus(errors) == ProviderStatus(OK, 0, "")
    ensures errors != [] ==>
              && SweepStatus(errors).state == Partial && SweepStatus(errors).assetCount == 0
              && SweepStatus(errors).error
                 == if |errors| == 1 then errors[0]
                    else JoinErrors(errors[..|errors| - 1]) + "; " + errors[|errors| - 1]
  {
    if errors != [] {
      JoinErrorsSnoc(errors[..|errors| - 1], errors[|errors| - 1]);
      assert errors[..|errors| - 1] + [errors[|errors| - 1]] == errors;
    }
  }

  /** A sweep that recorded a failure is partial. */
  function SweepStatus(errors: seq<string>): ProviderStatus {
    if errors == [] then ProviderStatus(OK, 0, "") else ProviderStatus(Partial, 0, JoinErrors(errors))
  }

  predicate HasAsset(assets: seq<Asset>, provider: string, id: string) {
    exists a :: a in assets && a.provider == provider && a.externalID == id
  }

  /** A loop that emits a row for each element. */
  function Flat<T, U>(xs: seq<T>, row: T -> seq<U>): seq<U> {
    if xs == [] then [] else Flat(xs[..|xs| - 1], row) + row(xs[|xs| - 1])
  }

  lemma FlatSnoc<T, U>(xs: seq<T>, i: nat, row: T -> seq<U>)
    requires i < |xs|
    ensures Flat(xs[..i + 1], row) == Flat(xs[..i], row) + row(xs[i])
  {
    assert xs[..i + 1][..i] == xs[..i];
  }

  lemma {:induction false} FlatConcat<T, U>(xs: seq<T>, ys: seq<T>, row: T -> seq<U>)
    ensures Flat(xs + ys, row) == Flat(xs, row) + Flat(ys, row)
  {
    if ys == [] {
      assert xs + ys == xs;
    } else {
      var n := |ys| - 1;
      FlatConcat(xs, ys[..n], row);
      assert (xs + ys)[..|xs| + n] == xs + ys[..n];
      Assoc(Flat(xs, row), Flat(ys[..n], row), row(ys[n]));
    }
  }

  lemma {:induction false} FlatMembers<T, U>(xs: seq<T>, row: T -> seq<U>)
    ensures forall r :: r in Flat(xs, row) <==> exists i :: 0 <= i < |xs| && r in row(xs[i])
  {
    if xs != [] {
      var init, last := xs[..|xs| - 1], xs[|xs| - 1];
      FlatMembers(init, row);
      forall r ensures r in Flat(xs, row) <==> exists i :: 0 <= i < |xs| && r in row(xs[i]) {
        if r in Flat(init, row) {
          var i :| 0 <= i < |init| && r in row(init[i]);
          assert r in row(xs[i]);
        }
        if i :| 0 <= i < |xs| && r in row(xs[i]) {
          if i < |init| {
            assert r in row(init[i]);
          }
        }
      }
    }
  }

  lemma FlatSource<T, U>(xs: seq<T>, row: T -> seq<U>, u: U) returns (i: nat)
    requires u in Flat(xs, row)
    ensures i < |xs| && u in row(xs[i])
  {
    FlatMembers(xs, row);
    i :| 0 <= i < |xs| && u in row(xs[i]);
  }

  /** Something is emitted exactly when one of the elements makes it. */
  lemma FlatExact<T, U>(xs: seq<T>, row: T -> seq<U>, u: U, makes: T -> bool)
    requires forall x | x in xs :: u in row(x) <==> makes(x)
    ensures u in Flat(xs, row) <==> exists x :: x in xs && makes(x)
  {
    FlatMembers(xs, row);
    if u in Flat(xs, row) {
      var i := FlatSource(xs, row, u);
      assert xs[i] in xs && makes(xs[i]);
    }
    if x :| x in xs && makes(x) {
      var i :| 0 <= i < |xs| && xs[i] == x;
      assert u in row(xs[i]);
    }
  }

  lemma NoDupConcat<T>(a: seq<T>, b: seq<T>)
    requires NoDup(a) && NoDup(b) && forall x | x in a :: x !in b
    ensures NoDup(a + b)
  {
    assert forall i | 0 <= i < |a| :: a[i] in a;
    assert forall i | 0 <= i < |b| :: b[i] in b;
  }

  /** Rows without repetitions that share nothing make a join without repetitions. */
  lemma {:induction false} FlatNoDup<T, U>(xs: seq<T>, row: T -> seq<U>)
    requires forall i | 0 <= i < |xs| :: NoDup(row(xs[i]))
    requires forall i, j, r | 0 <= i < j < |xs| && r in row(xs[i]) :: r !in row(xs[j])
    ensures NoDup(Flat(xs, row))
  {
    if xs != [] {
      var init, last := xs[..|xs| - 1], xs[|xs| - 1];
      forall i, j, r | 0 <= i < j < |init| && r in row(init[i]) ensures r !in row(init[j]) {
        assert r in row(xs[i]);
      }
      FlatNoDup(init, row);
      forall r | r in Flat(init, row) ensures r !in row(last) {
        var i := FlatSource(init, row, r);
        assert r in row(xs[i]);
      }
      NoDupConcat(Flat(init, row), row(last));
    }
  }
}

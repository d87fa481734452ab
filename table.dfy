/**
 * The shortlink collection as the database driver presents it: documents in
 * natural order under a unique index on `short`, and the driver primitives the
 * store issues, each one atomic step from one collection state to the next.
 */
module Table {
  import opened Options
  import opened Entity

  /** What a store call can fail with: no matching document, a unique-index violation, anything else. */
  datatype StoreError = NotFound | Duplicate | Unexpected(message: string)

  datatype Result<T> = Ok(value: T) | Err(error: StoreError)

  type Table = seq<Shortlink>

  /** The unique index on `short`: no two documents share a short. */
  predicate UniqueShorts(t: Table)
  {
    forall i, j :: 0 <= i < j < |t| ==> t[i].short != t[j].short
  }

  /** Some document has this short. */
  predicate Holds(t: Table, short: string)
  {
    exists i :: 0 <= i < |t| && t[i].short == short
  }

  /** Every stored document was created no later than it was last updated. */
  predicate TimesOrdered(t: Table)
  {
    forall x :: x in t ==> x.createdAt <= x.updatedAt
  }

  /** The position of the first document with this short, found by scanning in natural order. */
  function IndexOf(t: Table, short: string): (r: Option<nat>)
    ensures r.Some? ==> r.value < |t| && t[r.value].short == short
    ensures r.Some? ==> forall j :: 0 <= j < r.value ==> t[j].short != short
    ensures r.None? <==> !Holds(t, short)
  {
    if t == [] then None
    else if t[0].short == short then Some(0)
    else match IndexOf(t[1..], short)
      case None =>
        assert forall i :: 1 <= i < |t| ==> t[i] == t[1..][i - 1];
        None
      case Some(k) => Some(k + 1)
  }

  /** FindOne by short: the document that holds it, which the unique index makes the only one. */
  function FindOne(t: Table, short: string): (r: Option<Shortlink>)
    requires UniqueShorts(t)
    ensures r.None? <==> !Holds(t, short)
    ensures forall x :: r == Some(x) <==> x in t && x.short == short
  {
    match IndexOf(t, short)
    case None => None
    case Some(i) => Some(t[i])
  }

  /** Two collections with the same holders of a short answer FindOne for it alike. */
  lemma FindOneAgrees(t: Table, t': Table, s: string)
    requires UniqueShorts(t) && UniqueShorts(t')
    requires forall x :: x in t' && x.short == s <==> x in t && x.short == s
    ensures FindOne(t', s) == FindOne(t, s)
  {
  }

  /** Replacing one document leaves FindOne unchanged for every short neither it nor its replacement has. */
  lemma ReplaceKeepsOthers(t: Table, i: nat, d': Shortlink, s: string)
    requires i < |t| && UniqueShorts(t) && UniqueShorts(t[i := d'])
    requires s != t[i].short && s != d'.short
    ensures FindOne(t[i := d'], s) == FindOne(t, s)
  {
    var t' := t[i := d'];
    forall x ensures x in t' && x.short == s <==> x in t && x.short == s {
      if x in t && x.short == s {
        var j :| 0 <= j < |t| && t[j] == x;
        assert t'[j] == x;
      }
    }
    FindOneAgrees(t, t', s);
  }

  /**
   * InsertOne: fails with Duplicate, changing nothing, when the short is
   * taken; otherwise adds exactly the given document, which FindOne then
   * returns, and every other short is found as before.
   */
  function InsertOne(t: Table, d: Shortlink): (r: Result<Table>)
    requires UniqueShorts(t)
    ensures r.Err? <==> Holds(t, d.short)
    ensures r.Err? ==> r.error == Duplicate
    ensures r.Ok? ==> UniqueShorts(r.value) && multiset(r.value) == multiset(t) + multiset{d}
    ensures r.Ok? ==> FindOne(r.value, d.short) == Some(d)
    ensures r.Ok? ==> forall s :: s != d.short ==> FindOne(r.value, s) == FindOne(t, s)
  {
    if IndexOf(t, d.short).Some? then Err(Duplicate)
    else
      var t' := t + [d];
      assert UniqueShorts(t') by {
        forall i, j | 0 <= i < j < |t'| ensures t'[i].short != t'[j].short {
          if j == |t| { assert t[i].short != d.short; }
        }
      }
      forall s | s != d.short ensures FindOne(t', s) == FindOne(t, s) {
        FindOneAgrees(t, t', s);
      }
      Ok(t')
  }

  /**
   * FindOneAndUpdate with `$set` and upsert off: NotFound, changing nothing,
   * when no document has the old short; Duplicate, changing nothing, when the
   * new short is held by a different document; otherwise the matched document
   * becomes ApplyUpdate of it, is returned as it is after the write, and is
   * found under its new short, while every other short is found as before.
   */
  function FindOneAndSet(t: Table, short: string, u: ShortlinkUpdate): (r: Result<(Table, Shortlink)>)
    requires UniqueShorts(t)
    ensures r == Err(NotFound) <==> !Holds(t, short)
    ensures r == Err(Duplicate) <==> Holds(t, short) && u.short != short && Holds(t, u.short)
    ensures r.Ok? || r == Err(NotFound) || r == Err(Duplicate)
    ensures r.Ok? ==>
      var d, t', d' := FindOne(t, short).value, r.value.0, r.value.1;
      && d' == ApplyUpdate(d, u)
      && UniqueShorts(t')
      && multiset(t') == multiset(t) - multiset{d} + multiset{d'}
      && FindOne(t', u.short) == Some(d')
      && (short != u.short ==> !Holds(t', short))
      && forall s :: s != short && s != u.short ==> FindOne(t', s) == FindOne(t, s)
  {
    match IndexOf(t, short)
    case None => Err(NotFound)
    case Some(i) =>
      var clash := IndexOf(t, u.short);
      if clash.Some? && clash.value != i then Err(Duplicate)
      else
        var d' := ApplyUpdate(t[i], u);
        var t' := t[i := d'];
        assert UniqueShorts(t') by {
          forall j, k | 0 <= j < k < |t'| ensures t'[j].short != t'[k].short {
            if j == i { assert t[k].short != u.short; }
            if k == i { assert t[j].short != u.short; }
          }
        }
        assert t'[i] == d';
        forall s | s != short && s != u.short ensures FindOne(t', s) == FindOne(t, s) {
          ReplaceKeepsOthers(t, i, d', s);
        }
        assert short != u.short ==> !Holds(t', short) by {
          if short != u.short {
            forall j | 0 <= j < |t'| ensures t'[j].short != short {
              if j != i { assert t[j].short != t[i].short; }
            }
          }
        }
        Ok((t', d'))
  }

  /** A shortlink with one more access counted: `$inc access_count` by one. */
  function CountAccess(d: Shortlink): Shortlink
  {
    d.(accessCount := d.accessCount + 1)
  }

  /**
   * FindOneAndUpdate with `$inc access_count` and upsert off, projected to
   * `long`: NotFound, changing nothing, when the short is absent; otherwise the
   * matched document's access_count goes up by exactly one, nothing else of it
   * changes (not even updated_at), its long is returned, and every other short
   * is found as before.
   */
  function FindOneAndIncrement(t: Table, short: string): (r: Result<(Table, string)>)
    requires UniqueShorts(t)
    ensures r.Err? <==> !Holds(t, short)
    ensures r.Err? ==> r.error == NotFound
    ensures r.Ok? ==>
      var d, t' := FindOne(t, short).value, r.value.0;
      && r.value.1 == d.long
      && UniqueShorts(t')
      && multiset(t') == multiset(t) - multiset{d} + multiset{CountAccess(d)}
      && FindOne(t', short) == Some(CountAccess(d))
      && forall s :: s != short ==> FindOne(t', s) == FindOne(t, s)
  {
    match IndexOf(t, short)
    case None => Err(NotFound)
    case Some(i) =>
      var d := t[i];
      var t' := t[i := CountAccess(d)];
      assert FindOne(t, short) == Some(d) by {
        assert d in t;
      }
      assert t'[i] == CountAccess(d);
      assert UniqueShorts(t') by {
        forall j, k | 0 <= j < k < |t'| ensures t'[j].short != t'[k].short {
          assert t[j].short != t[k].short;
        }
      }
      assert FindOne(t', short) == Some(CountAccess(d)) by {
        assert CountAccess(d) in t';
      }
      forall s | s != short ensures FindOne(t', s) == FindOne(t, s) {
        ReplaceKeepsOthers(t, i, CountAccess(d), s);
      }
      Ok((t', d.long))
  }

  /** A non-empty collection holds a short exactly when its first document or the rest does. */
  lemma HoldsCons(t: Table, short: string)
    requires t != []
    ensures Holds(t, short) <==> t[0].short == short || Holds(t[1..], short)
  {
    if Holds(t, short) && t[0].short != short {
      var k :| 0 <= k < |t| && t[k].short == short;
      assert t[1..][k - 1] == t[k];
    }
    if Holds(t[1..], short) {
      var k :| 0 <= k < |t[1..]| && t[1..][k].short == short;
      assert t[k + 1] == t[1..][k];
    }
  }

  /** Under the unique index the rest is unique and does not hold the first document's short. */
  lemma UniqueTail(t: Table)
    requires t != [] && UniqueShorts(t)
    ensures UniqueShorts(t[1..]) && !Holds(t[1..], t[0].short)
  {
    forall k | 0 <= k < |t[1..]| ensures t[1..][k].short != t[0].short {
      assert t[1..][k] == t[k + 1];
    }
  }

  /** A document in front of a unique collection that does not hold its short keeps it unique. */
  lemma UniqueCons(d: Shortlink, t: Table)
    requires UniqueShorts(t) && !Holds(t, d.short)
    ensures UniqueShorts([d] + t)
  {
    var t' := [d] + t;
    forall j, k | 0 <= j < k < |t'| ensures t'[j].short != t'[k].short {
      assert t'[k] == t[k - 1];
      if j > 0 { assert t'[j] == t[j - 1]; }
    }
  }

  /**
   * DeleteMany by short: removes every document with that short, keeps every
   * other one, and reports how many it removed.
   */
  function DeleteMany(t: Table, short: string): (r: (Table, nat))
    ensures forall x :: x in r.0 <==> x in t && x.short != short
    ensures r.1 + |r.0| == |t|
    ensures !Holds(r.0, short)
  {
    if t == [] then ([], 0)
    else
      var rest := DeleteMany(t[1..], short);
      assert t == [t[0]] + t[1..];
      if t[0].short == short then (rest.0, rest.1 + 1)
      else
        var kept := [t[0]] + rest.0;
        assert !Holds(kept, short) by {
          HoldsCons(kept, short);
          assert kept[1..] == rest.0;
        }
        (kept, rest.1)
  }

  /** DeleteMany keeps every other document exactly as often as it was stored. */
  lemma {:induction false} DeleteManyKeepsCopies(t: Table, short: string)
    ensures forall x :: multiset(DeleteMany(t, short).0)[x] == if x.short == short then 0 else multiset(t)[x]
  {
    if t != [] {
      DeleteManyKeepsCopies(t[1..], short);
      assert t == [t[0]] + t[1..];
      assert multiset(t) == multiset{t[0]} + multiset(t[1..]);
      if t[0].short != short {
        var rest := DeleteMany(t[1..], short).0;
        assert DeleteMany(t, short).0 == [t[0]] + rest;
        assert multiset([t[0]] + rest) == multiset{t[0]} + multiset(rest);
      }
    }
  }

  /**
   * Under the unique index DeleteMany keeps the index unique, removes one
   * document when the short was held and none otherwise, and every other
   * short is found as before.
   */
  lemma {:induction false} DeleteManyUnique(t: Table, short: string)
    requires UniqueShorts(t)
    ensures UniqueShorts(DeleteMany(t, short).0)
    ensures DeleteMany(t, short).1 == if Holds(t, short) then 1 else 0
    ensures forall s :: s != short ==> FindOne(DeleteMany(t, short).0, s) == FindOne(t, s)
  {
    if t != [] {
      var rest := DeleteMany(t[1..], short);
      UniqueTail(t);
      DeleteManyUnique(t[1..], short);
      HoldsCons(t, short);
      if t[0].short != short {
        assert DeleteMany(t, short).0 == [t[0]] + rest.0;
        assert !Holds(rest.0, t[0].short) by {
          forall k | 0 <= k < |rest.0| ensures rest.0[k].short != t[0].short {
            assert rest.0[k] in rest.0;
          }
        }
        UniqueCons(t[0], rest.0);
      }
      forall s | s != short ensures FindOne(DeleteMany(t, short).0, s) == FindOne(t, s) {
        FindOneAgrees(t, DeleteMany(t, short).0, s);
      }
    }
  }

  /**
   * Redirect counts survive a rename: create a shortlink, resolve it twice,
   * rename it; the document found under the new short has been accessed twice
   * more and keeps its identifier and creation time.
   */
  lemma RedirectCountSurvivesRename(t: Table, d: Shortlink, u: ShortlinkUpdate)
    requires UniqueShorts(t) && !Holds(t, d.short)
    requires u.short == d.short || !Holds(t, u.short)
    ensures InsertOne(t, d).Ok?
    ensures var t1 := InsertOne(t, d).value;
      FindOneAndIncrement(t1, d.short).Ok? &&
      var t2 := FindOneAndIncrement(t1, d.short).value.0;
      FindOneAndIncrement(t2, d.short).Ok? &&
      var t3 := FindOneAndIncrement(t2, d.short).value.0;
      FindOneAndSet(t3, d.short, u).Ok? &&
      var t4 := FindOneAndSet(t3, d.short, u).value.0;
      FindOne(t4, u.short).Some? &&
      var e := FindOne(t4, u.short).value;
      e.accessCount == d.accessCount + 2 && e.id == d.id && e.createdAt == d.createdAt
      && e.long == u.long && e.descr == u.descr
  {
    var t1 := InsertOne(t, d).value;
    assert FindOne(t1, d.short) == Some(d);
    var t2 := FindOneAndIncrement(t1, d.short).value.0;
    assert FindOne(t2, d.short) == Some(CountAccess(d));
    var t3 := FindOneAndIncrement(t2, d.short).value.0;
    assert FindOne(t3, d.short) == Some(d.(accessCount := d.accessCount + 2));
    if u.short != d.short {
      assert FindOne(t1, u.short) == None;
      assert FindOne(t2, u.short) == None;
      assert FindOne(t3, u.short) == None;
    }
  }

  /**
   * A rename frees the old short: afterwards it is not found, and a new
   * shortlink can be created under it.
   */
  lemma RenameFreesOldShort(t: Table, short: string, u: ShortlinkUpdate, x: Shortlink)
    requires UniqueShorts(t) && Holds(t, short) && !Holds(t, u.short)
    requires x.short == short
    ensures FindOneAndSet(t, short, u).Ok?
    ensures var t' := FindOneAndSet(t, short, u).value.0;
      FindOne(t', short) == None && InsertOne(t', x).Ok?
  {
    assert u.short != short;
  }

  /**
   * An update keeps created_at and moves updated_at to the clock reading it
   * carries; with a clock that has not gone back, every stored document stays
   * created no later than updated, and the updated one's updated_at does not
   * decrease.
   */
  lemma UpdateKeepsTimesOrdered(t: Table, short: string, u: ShortlinkUpdate)
    requires UniqueShorts(t) && TimesOrdered(t) && Holds(t, short)
    requires FindOne(t, short).value.updatedAt <= u.updatedAt
    requires FindOneAndSet(t, short, u).Ok?
    ensures var d, d' := FindOne(t, short).value, FindOneAndSet(t, short, u).value.1;
      d'.createdAt == d.createdAt && d.updatedAt <= d'.updatedAt
    ensures TimesOrdered(FindOneAndSet(t, short, u).value.0)
  {
    var d := FindOne(t, short).value;
    var t', d' := FindOneAndSet(t, short, u).value.0, FindOneAndSet(t, short, u).value.1;
    forall x | x in t' ensures x.createdAt <= x.updatedAt {
      assert x in multiset(t');
      if x != d' {
        assert x in multiset(t) - multiset{d};
      }
    }
  }

  /** Inserting a document stamped from two successive clock readings keeps every document created no later than updated. */
  lemma InsertKeepsTimesOrdered(t: Table, d: Shortlink)
    requires UniqueShorts(t) && TimesOrdered(t) && d.createdAt <= d.updatedAt
    requires InsertOne(t, d).Ok?
    ensures TimesOrdered(InsertOne(t, d).value)
  {
    var t' := InsertOne(t, d).value;
    forall x | x in t' ensures x.createdAt <= x.updatedAt {
      assert x in multiset(t');
    }
  }

  /** Counting a redirect keeps every document created no later than updated. */
  lemma IncrementKeepsTimesOrdered(t: Table, short: string)
    requires UniqueShorts(t) && TimesOrdered(t)
    requires FindOneAndIncrement(t, short).Ok?
    ensures TimesOrdered(FindOneAndIncrement(t, short).value.0)
  {
    var c := FindOne(t, short).value;
    var t' := FindOneAndIncrement(t, short).value.0;
    forall x | x in t' ensures x.createdAt <= x.updatedAt {
      assert x in multiset(t');
      if x != CountAccess(c) {
        assert x in multiset(t) - multiset{c};
      }
    }
  }
}

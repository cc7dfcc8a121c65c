/** A stored collection: documents in insertion (natural) order, each with its
    `_id`. Lookups, filters, in-place replacement and removal are the queries
    the controllers and hooks issue (`findById`, `find({field: value})`,
    `findByIdAndUpdate`, `remove`, `deleteMany`). */
module Collection {
  import opened Shared

  datatype Doc<T> = Doc(id: Id, body: T)

  function IdOf<T>(d: Doc<T>): Id { d.id }

  /** `findById`: the first document with that id, if any. */
  function Find<T>(s: seq<Doc<T>>, id: Id): (r: Option<Doc<T>>)
    ensures r.Some? ==> r.value in s && r.value.id == id
    ensures r.None? <==> forall i :: 0 <= i < |s| ==> s[i].id != id
  {
    if s == [] then None else if s[0].id == id then Some(s[0]) else Find(s[1..], id)
  }

  /** `find` with a condition: the matching documents, in stored order. */
  function Where<T>(s: seq<T>, keep: T -> bool): (r: seq<T>)
    ensures |r| <= |s|
    ensures forall i :: 0 <= i < |r| ==> r[i] in s && keep(r[i])
    ensures forall i :: 0 <= i < |s| && keep(s[i]) ==> s[i] in r
  {
    if s == [] then [] else (if keep(s[0]) then [s[0]] else []) + Where(s[1..], keep)
  }

  /** Filtering keeps order: an element appended at the end is kept at the
      end. */
  lemma {:induction false} WhereAppend<T>(s: seq<T>, x: T, keep: T -> bool)
    ensures Where(s + [x], keep) == Where(s, keep) + (if keep(x) then [x] else [])
  {
    if s == [] {
      assert [] + [x] == [x];
      assert [x][1..] == [];
    } else {
      assert (s + [x])[0] == s[0];
      assert (s + [x])[1..] == s[1..] + [x];
      WhereAppend(s[1..], x, keep);
    }
  }

  /** A filter that keeps nothing of `s` returns nothing. */
  lemma {:induction false} WhereNone<T>(s: seq<T>, keep: T -> bool)
    requires forall i :: 0 <= i < |s| ==> !keep(s[i])
    ensures Where(s, keep) == []
  {
    if s != [] {
      WhereNone(s[1..], keep);
    }
  }

  function NotId<T>(id: Id): Doc<T> -> bool {
    (d: Doc<T>) => d.id != id
  }

  /** Removal of the document with that id (and of nothing else). */
  function Without<T>(s: seq<Doc<T>>, id: Id): (r: seq<Doc<T>>)
    ensures forall i :: 0 <= i < |r| ==> r[i] in s && r[i].id != id
    ensures forall i :: 0 <= i < |s| && s[i].id != id ==> s[i] in r
    ensures Find(r, id).None?
  {
    Where(s, NotId(id))
  }

  /** `findByIdAndUpdate`: the document with that id becomes `d`; the others
      keep their place and content. */
  function Replace<T>(s: seq<Doc<T>>, id: Id, d: Doc<T>): (r: seq<Doc<T>>)
    ensures |r| == |s|
    ensures forall i :: 0 <= i < |s| ==> r[i] == if s[i].id == id then d else s[i]
  {
    if s == [] then [] else [if s[0].id == id then d else s[0]] + Replace(s[1..], id, d)
  }

  /** No two documents share a key: the unique indexes of the collections. */
  ghost predicate DistinctBy<T, K>(s: seq<T>, key: T -> K) {
    forall i, j :: 0 <= i < j < |s| ==> key(s[i]) != key(s[j])
  }

  /** With unique ids, `findById` returns the one document carrying the id. */
  lemma FindUnique<T>(s: seq<Doc<T>>, i: nat)
    requires DistinctBy(s, IdOf) && i < |s|
    ensures Find(s, s[i].id) == Some(s[i])
  {
    var r := Find(s, s[i].id);
    assert r.Some?;
    var j :| 0 <= j < |s| && s[j] == r.value;
  }

  /** Filtering keeps a unique index unique. */
  lemma {:induction false} DistinctWhere<T, K>(s: seq<T>, key: T -> K, keep: T -> bool)
    requires DistinctBy(s, key)
    ensures DistinctBy(Where(s, keep), key)
  {
    if s != [] {
      var rest := Where(s[1..], keep);
      assert DistinctBy(s[1..], key) by {
        forall i, j | 0 <= i < j < |s[1..]| ensures key(s[1..][i]) != key(s[1..][j]) {
          assert s[1..][i] == s[i + 1] && s[1..][j] == s[j + 1];
        }
      }
      DistinctWhere(s[1..], key, keep);
      if keep(s[0]) {
        var r := [s[0]] + rest;
        forall i, j | 0 <= i < j < |r| ensures key(r[i]) != key(r[j]) {
          if i == 0 {
            assert r[j] == rest[j - 1] && r[j] in s[1..];
            var k :| 0 <= k < |s[1..]| && s[1..][k] == r[j];
            assert s[k + 1] == r[j];
          } else {
            assert r[i] == rest[i - 1] && r[j] == rest[j - 1];
          }
        }
        assert Where(s, keep) == r;
      } else {
        assert Where(s, keep) == rest;
      }
    }
  }

  /** Appending a document whose key is new keeps an index unique. */
  lemma DistinctAppend<T, K>(s: seq<T>, key: T -> K, x: T)
    requires DistinctBy(s, key)
    requires forall i :: 0 <= i < |s| ==> key(s[i]) != key(x)
    ensures DistinctBy(s + [x], key)
  {
    var r := s + [x];
    forall i, j | 0 <= i < j < |r| ensures key(r[i]) != key(r[j]) {
      if j < |s| { assert r[i] == s[i] && r[j] == s[j]; } else { assert r[i] == s[i]; }
    }
  }

  /** Replacing the document with id `id` by one whose key clashes with no
      other document keeps an index unique. */
  lemma DistinctReplace<T, K>(s: seq<Doc<T>>, key: Doc<T> -> K, id: Id, d: Doc<T>)
    requires DistinctBy(s, key) && DistinctBy(s, IdOf)
    requires forall i :: 0 <= i < |s| && s[i].id != id ==> key(s[i]) != key(d)
    ensures DistinctBy(Replace(s, id, d), key)
  {
    var r := Replace(s, id, d);
    forall i, j | 0 <= i < j < |r| ensures key(r[i]) != key(r[j]) {
      assert IdOf(s[i]) != IdOf(s[j]);
    }
  }

  /** Removing a document keeps an index unique. */
  lemma DistinctWithout<T, K>(s: seq<Doc<T>>, key: Doc<T> -> K, id: Id)
    requires DistinctBy(s, key)
    ensures DistinctBy(Without(s, id), key)
  {
    DistinctWhere(s, key, NotId(id));
  }

  /** Replacing the document with id `id` by one with the same key keeps an
      index unique, when ids are unique. */
  lemma DistinctReplaceSameKey<T, K>(s: seq<Doc<T>>, key: Doc<T> -> K, id: Id, d: Doc<T>)
    requires DistinctBy(s, key) && DistinctBy(s, IdOf)
    requires Find(s, id).Some? && key(d) == key(Find(s, id).value)
    ensures DistinctBy(Replace(s, id, d), key)
  {
    var r := Replace(s, id, d);
    forall i | 0 <= i < |s| ensures key(r[i]) == key(s[i]) {
      if s[i].id == id {
        FindUnique(s, i);
      }
    }
    forall i, j | 0 <= i < j < |r| ensures key(r[i]) != key(r[j]) {
      assert key(r[i]) == key(s[i]) && key(r[j]) == key(s[j]);
    }
  }
}

/** The key mapping of the MongoDB layer: a dot may not occur in a stored key, so `insert` writes a
    star in its place and `find_one` writes the dot back. Keys are renamed in a loop over a
    dictionary, in any order. */
module KeyMapping {
  import opened Wrappers

  /** `str.replace` for patterns of one character. */
  function Replace(s: string, src: char, dst: char): string {
    seq(|s|, i requires 0 <= i < |s| => if s[i] == src then dst else s[i])
  }

  /** `after` is what a loop over `before`, taken in any order, leaves when it files every value
      under the replaced key. Of several keys that collide, one wins. */
  ghost predicate Renamed<V>(before: map<string, V>, src: char, dst: char, after: map<string, V>) {
    && (forall k {:trigger Replace(k, src, dst)} | k in before :: Replace(k, src, dst) in after)
    && (forall r {:trigger after[r]} | r in after :: exists k :: k in before && Replace(k, src, dst) == r && after[r] == before[k])
  }

  ghost predicate FreeOf<V>(m: map<string, V>, c: char) {
    forall k | k in m :: c !in k
  }

  method ReplaceKeys<V>(before: map<string, V>, src: char, dst: char) returns (after: map<string, V>)
    ensures Renamed(before, src, dst, after)
  {
    after := map[];
    var todo := before.Keys;
    while todo != {}
      invariant todo <= before.Keys
      invariant forall k | k in before && k !in todo :: Replace(k, src, dst) in after
      invariant forall r | r in after :: exists k :: k in before && Replace(k, src, dst) == r && after[r] == before[k]
      decreases todo
    {
      var k :| k in todo;
      after := after[Replace(k, src, dst) := before[k]];
      todo := todo - {k};
    }
  }

  /** A stored or inserted document: the parameters, when the document has them, and the rest. */
  datatype Document<T> = Document(parameters: Option<map<string, string>>, rest: T)

  /** `after` is `before` with the keys of its parameters renamed; a document without parameters
      stays as it is. */
  ghost predicate Mapped<T>(before: Document<T>, src: char, dst: char, after: Document<T>) {
    && after.rest == before.rest
    && match before.parameters {
         case None => after.parameters == None
         case Some(p) => after.parameters.Some? && Renamed(p, src, dst, after.parameters.value)
       }
  }

  /** `stored` is what `insert` may write for `data`. */
  ghost predicate StoredAs<T>(data: Document<T>, stored: Document<T>) {
    Mapped(data, '.', '*', stored)
  }

  class DatabaseMongoDB<T> {
    var collection: seq<Document<T>>

    method Insert(data: Document<T>)
      modifies this
      ensures |collection| == |old(collection)| + 1
      ensures collection[..|old(collection)|] == old(collection)
      ensures StoredAs(data, collection[|old(collection)|])
    {
      var mongoObj := data;
      if data.parameters.Some? {
        var d := ReplaceKeys(data.parameters.value, '.', '*');
        mongoObj := mongoObj.(parameters := Some(d));
      }
      collection := collection + [mongoObj];
    }

    /** The call passes no selector on, so any stored document may come back. */
    method FindOne(pick: nat) returns (found: Option<Document<T>>)
      ensures found.Some? <==> collection != []
      ensures found.Some? ==> Mapped(collection[pick % |collection|], '*', '.', found.value)
      ensures found.Some? ==>
                forall data | StoredAs(data, collection[pick % |collection|]) &&
                              (data.parameters.Some? ==> FreeOf(data.parameters.value, '*')) ::
                  found.value == data
    {
      if collection == [] {
        return None;
      }
      var mongoObj := collection[pick % |collection|];
      ghost var stored := mongoObj;
      if mongoObj.parameters.Some? {
        var d := ReplaceKeys(mongoObj.parameters.value, '*', '.');
        mongoObj := mongoObj.(parameters := Some(d));
      }
      found := Some(mongoObj);
      forall data | StoredAs(data, stored) && (data.parameters.Some? ==> FreeOf(data.parameters.value, '*'))
        ensures mongoObj == data
      {
        if data.parameters.Some? {
          RoundTripIff(data.parameters.value, stored.parameters.value, mongoObj.parameters.value);
        }
      }
    }
  }

  lemma ReplaceTwice(k: string)
    ensures '.' !in Replace(k, '.', '*')
    ensures '*' !in Replace(Replace(k, '.', '*'), '*', '.')
    ensures Replace(Replace(k, '.', '*'), '*', '.') == k <==> '*' !in k
  {
    var r := Replace(Replace(k, '.', '*'), '*', '.');
    if '*' in k {
      var i :| 0 <= i < |k| && k[i] == '*';
      assert r[i] == '.';
    } else {
      assert r == k;
    }
  }

  /** Stored keys hold no dot, and as long as no original key holds a star none of them collide. */
  lemma StoredKeys<V>(original: map<string, V>, stored: map<string, V>)
    requires Renamed(original, '.', '*', stored)
    ensures FreeOf(stored, '.')
    ensures FreeOf(original, '*') ==> |stored| == |original|
    ensures FreeOf(original, '*') ==> forall k | k in original :: stored[Replace(k, '.', '*')] == original[k]
  {
    forall r | r in stored ensures '.' !in r {
      var k :| k in original && Replace(k, '.', '*') == r;
      ReplaceTwice(k);
    }
    if FreeOf(original, '*') {
      forall k | k in original ensures stored[Replace(k, '.', '*')] == original[k] {
        var other :| other in original && Replace(other, '.', '*') == Replace(k, '.', '*')
                     && stored[Replace(k, '.', '*')] == original[other];
        ReplaceTwice(k);
        ReplaceTwice(other);
      }
      SameSize(original, stored);
    }
  }

  /** An injective renaming of the keys keeps the number of entries. */
  lemma {:induction false} SameSize<V>(original: map<string, V>, stored: map<string, V>)
    requires Renamed(original, '.', '*', stored) && FreeOf(original, '*')
    ensures |stored| == |original|
    decreases |original|
  {
    if original == map[] {
      assert forall r :: r !in stored;
    } else {
      var k :| k in original;
      var r := Replace(k, '.', '*');
      var rest, storedRest := original - {k}, stored - {r};
      forall j | j in rest ensures Replace(j, '.', '*') in storedRest {
        ReplaceTwice(j);
        ReplaceTwice(k);
      }
      forall s | s in storedRest
        ensures exists j :: j in rest && Replace(j, '.', '*') == s && storedRest[s] == rest[j]
      {
        var j :| j in original && Replace(j, '.', '*') == s && stored[s] == original[j];
        assert j in rest;
      }
      assert |original.Keys - {k}| == |original| - 1 && rest.Keys == original.Keys - {k};
      assert |stored.Keys - {r}| == |stored| - 1 && storedRest.Keys == stored.Keys - {r};
      SameSize(rest, storedRest);
    }
  }

  /** A restored key is an original key with its stars turned to dots. */
  lemma RestoredKey<V>(original: map<string, V>, stored: map<string, V>, restored: map<string, V>, r: string)
    returns (k: string)
    requires Renamed(original, '.', '*', stored) && Renamed(stored, '*', '.', restored)
    requires r in restored
    ensures k in original && restored[r] == original[k]
    ensures r == Replace(Replace(k, '.', '*'), '*', '.')
  {
    var t :| t in stored && Replace(t, '*', '.') == r && restored[r] == stored[t];
    k :| k in original && Replace(k, '.', '*') == t && stored[t] == original[k];
  }

  lemma RestoredEntries<V>(original: map<string, V>, stored: map<string, V>, restored: map<string, V>, r: string)
    requires Renamed(original, '.', '*', stored) && Renamed(stored, '*', '.', restored)
    ensures r in restored ==> '*' !in r
    ensures FreeOf(original, '*') ==> (r in restored <==> r in original)
    ensures FreeOf(original, '*') && r in original ==> restored[r] == original[r]
  {
    ReplaceTwice(r);
    if r in original {
      assert Replace(Replace(r, '.', '*'), '*', '.') in restored;
    }
    if r in restored {
      var k := RestoredKey(original, stored, restored, r);
      ReplaceTwice(k);
    }
  }

  /** The entry-wise facts of `RestoredEntries`, for every key at once. */
  ghost predicate EntriesAgree<V>(original: map<string, V>, restored: map<string, V>) {
    && (forall r | r in restored :: '*' !in r)
    && (FreeOf(original, '*') ==> forall r :: r in restored <==> r in original)
    && (FreeOf(original, '*') ==> forall r | r in original :: r in restored && restored[r] == original[r])
  }

  lemma AgreeingMaps<V>(original: map<string, V>, restored: map<string, V>)
    requires EntriesAgree(original, restored)
    ensures restored == original <==> FreeOf(original, '*')
  {
    if FreeOf(original, '*') {
      assert restored.Keys == original.Keys;
    }
  }

  /** Storing and reading back restores the original map exactly when no original key holds a star,
      whatever the iteration orders. */
  lemma RoundTripIff<V>(original: map<string, V>, stored: map<string, V>, restored: map<string, V>)
    requires Renamed(original, '.', '*', stored)
    requires Renamed(stored, '*', '.', restored)
    ensures restored == original <==> FreeOf(original, '*')
  {
    assert EntriesAgree(original, restored) by {
      forall r: string
        ensures r in restored ==> '*' !in r
        ensures FreeOf(original, '*') ==> (r in restored <==> r in original)
        ensures FreeOf(original, '*') && r in original ==> restored[r] == original[r]
      {
        RestoredEntries(original, stored, restored, r);
      }
    }
    AgreeingMaps(original, restored);
  }
}

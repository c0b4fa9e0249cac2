/**
 * The deduplicating results store (src/qal/results_store.py): records keyed
 * by identifier, the first record seen for an identifier kept, provenance
 * appended to the kept record, and a save every `saviness` additions.
 */
module Store {
  import opened Wrappers
  import opened Types

  /** Every key maps to the record whose identifier it is. */
  ghost predicate Keyed(data: map<string, Publication>) {
    forall k :: k in data ==> data[k].bib.identifier == k
  }

  /** Storing a value under a key adds at most that value to the map's values. */
  lemma ValuesUpdate<K, V>(m: map<K, V>, k: K, v: V)
    ensures m[k := v].Values <= m.Values + {v}
  {
    forall x | x in m[k := v].Values
      ensures x in m.Values + {v}
    {
      var key :| key in m[k := v] && m[k := v][key] == x;
      if key != k {
        assert m[key] == x;
      }
    }
  }

  /** What the store holds under one identifier: the kept record and its provenance. */
  datatype Stored = Stored(bib: Bib, searchTerms: SearchTerms)

  /**
   * `add_item` on the store's contents: a record whose identifier is new is
   * kept with its own provenance `own`, a known identifier keeps the record
   * already there, and the provenance of the kept record gains the query
   * under the source when both are given.
   */
  function Added(m: map<string, Stored>, bib: Bib, own: SearchTerms, source: Option<string>, query: Option<Query>): map<string, Stored> {
    var held := if bib.identifier in m then m[bib.identifier] else Stored(bib, own);
    m[bib.identifier := if source.Some? && query.Some? then held.(searchTerms := AddTerms(held.searchTerms, source.value, query.value))
                        else held]
  }

  /** `Added` is the insertion of a new record followed by the provenance append. */
  lemma AddedInSteps(m0: map<string, Stored>, m1: map<string, Stored>, m2: map<string, Stored>, bib: Bib, own: SearchTerms,
                     source: Option<string>, query: Option<Query>)
    requires m1 == if bib.identifier in m0 then m0 else m0[bib.identifier := Stored(bib, own)]
    requires m2 == if source.Some? && query.Some? then
                     m1[bib.identifier := Stored(m1[bib.identifier].bib, AddTerms(m1[bib.identifier].searchTerms, source.value, query.value))]
                   else m1
    ensures m2 == Added(m0, bib, own, source, query)
  {
  }

  class ResultsStore {
    const saviness: int
    var data: map<string, Publication>
    var num: int
    /** How many times `save` has written the store out; the writing itself is not modelled. */
    var saves: nat
    /** The publication objects the store holds or has held. */
    ghost var Repr: set<Publication>

    ghost predicate Valid()
      reads this
    {
      Keyed(data) && data.Values <= Repr
    }

    /** A store whose file did not exist: empty, counter at zero. */
    constructor (saviness: int)
      ensures Valid() && data == map[] && num == 0 && saves == 0 && this.saviness == saviness
    {
      this.saviness := saviness;
      data := map[];
      num := 0;
      saves := 0;
      Repr := {};
    }

    /** A store read back from a file that an earlier store saved. */
    constructor Restore(saviness: int, loaded: map<string, Publication>)
      requires Keyed(loaded)
      ensures Valid() && data == loaded && num == 0 && saves == 0 && this.saviness == saviness
    {
      this.saviness := saviness;
      data := loaded;
      num := 0;
      saves := 0;
      Repr := loaded.Values;
    }

    /** The store's contents as values: every identifier with its kept record and that record's provenance. */
    ghost function Contents(): (c: map<string, Stored>)
      reads this, data.Values
      ensures c.Keys == data.Keys
    {
      map k | k in data :: Stored(data[k].bib, data[k].searchTerms)
    }

    /** The object whose provenance `add_item(item, ...)` extends: the stored one if any, else `item`. */
    function Holder(item: Publication): Publication
      reads this
    {
      if item.bib.identifier in data then data[item.bib.identifier] else item
    }

    /**
     * `add_item`: insert under the identifier unless one is already there
     * (first record wins); append provenance to the stored record when both
     * source and query are given; count additions and save on the cadence.
     */
    method AddItem(item: Publication, source: Option<string>, query: Option<Query>) returns (saved: bool)
      requires Valid()
      modifies this, Holder(item)
      ensures Valid()
      ensures data.Keys == old(data.Keys) + {item.bib.identifier}
      ensures Repr == old(Repr) + {item}
      ensures item.bib.identifier in old(data) ==> data[item.bib.identifier] == old(data[item.bib.identifier])
      ensures item.bib.identifier !in old(data) ==> data[item.bib.identifier] == item
      ensures forall k :: k in old(data) && k != item.bib.identifier ==>
                data[k] == old(data[k]) && data[k].searchTerms == old(data[k].searchTerms)
      ensures data[item.bib.identifier].bib == old(Holder(item)).bib
      ensures data[item.bib.identifier].searchTerms ==
                if source.Some? && query.Some? then AddTerms(old(Holder(item).searchTerms), source.value, query.value)
                else old(Holder(item).searchTerms)
      ensures num == if saviness > 0 then old(num) + 1 else old(num)
      ensures saved <==> saviness > 0 && num % saviness == 0
      ensures saves == if saved then old(saves) + 1 else old(saves)
      ensures Contents() == Added(old(Contents()), item.bib, old(item.searchTerms), source, query)
    {
      Record(item, source, query);
      saved := Tick();
    }

    /** The part of `add_item` that changes the contents: first record wins, then the provenance append. */
    method Record(item: Publication, source: Option<string>, query: Option<Query>)
      requires Valid()
      modifies this`data, this`Repr, Holder(item)
      ensures Valid()
      ensures data.Keys == old(data.Keys) + {item.bib.identifier}
      ensures Repr == old(Repr) + {item}
      ensures item.bib.identifier in old(data) ==> data[item.bib.identifier] == old(data[item.bib.identifier])
      ensures item.bib.identifier !in old(data) ==> data[item.bib.identifier] == item
      ensures forall k :: k in old(data) && k != item.bib.identifier ==>
                data[k] == old(data[k]) && data[k].searchTerms == old(data[k].searchTerms)
      ensures data[item.bib.identifier].bib == old(Holder(item)).bib
      ensures data[item.bib.identifier].searchTerms ==
                if source.Some? && query.Some? then AddTerms(old(Holder(item).searchTerms), source.value, query.value)
                else old(Holder(item).searchTerms)
      ensures Contents() == Added(old(Contents()), item.bib, old(item.searchTerms), source, query)
    {
      var id := item.bib.identifier;
      ghost var m0 := Contents();
      Insert(item);
      ghost var m1 := Contents();
      if source.Some? && query.Some? {
        Annotate(id, source.value, query.value);
      }
      AddedInSteps(m0, m1, Contents(), item.bib, old(item.searchTerms), source, query);
    }

    /** The first publication seen under an identifier is the one kept. */
    method Insert(item: Publication)
      requires Valid()
      modifies this`data, this`Repr
      ensures Valid()
      ensures data == if item.bib.identifier in old(data) then old(data) else old(data)[item.bib.identifier := item]
      ensures Repr == old(Repr) + {item}
      ensures Contents() == if item.bib.identifier in old(data) then old(Contents())
                            else old(Contents())[item.bib.identifier := Stored(item.bib, item.searchTerms)]
    {
      var id := item.bib.identifier;
      if id !in data {
        ValuesUpdate(data, id, item);
        data := data[id := item];
      }
      Repr := Repr + {item};
    }

    /** The provenance of the record kept under `id` gains the query under the source. */
    method Annotate(id: string, source: string, query: Query)
      requires Valid() && id in data
      modifies data[id]
      ensures Valid() && data[id].searchTerms == AddTerms(old(data[id].searchTerms), source, query)
      ensures forall k :: k in data && k != id ==> data[k].searchTerms == old(data[k].searchTerms)
      ensures Contents() == old(Contents())[id := Stored(data[id].bib, AddTerms(old(data[id].searchTerms), source, query))]
    {
      data[id].AddSearchTerms(source, query);
    }

    /** One more item counted; every `saviness`-th one triggers a save. */
    method Tick() returns (saved: bool)
      modifies this`num, this`saves
      ensures num == if saviness > 0 then old(num) + 1 else old(num)
      ensures saved <==> saviness > 0 && num % saviness == 0
      ensures saves == if saved then old(saves) + 1 else old(saves)
    {
      saved := false;
      if saviness > 0 {
        num := num + 1;
        if num % saviness == 0 {
          saves := saves + 1;
          saved := true;
        }
      }
    }

    /** `get` computes the lookup but has no return statement, so it always yields None. */
    method Get(name: string) returns (r: Option<Publication>)
      ensures r == None
    {
      var _ := Lookup(data, name);
      r := None;
    }
  }
}

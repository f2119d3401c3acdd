/** The document store as the controllers and the seeder see it: five
    collections of quiz records, plus a description of which calls fail.
    Connection handling is not part of this model. */
module DocumentStore {
  import opened Quiz

  /** One call into the store. A call is identified by its kind and
      collection (and, for a skip query, its offset). */
  datatype Call =
    | FindAll(c: Category)
    | Count(c: Category)
    | FindOneAt(c: Category, skip: nat)
    | Clear(c: Category)
    | Insert(c: Category)

  class Store {
    /** The records of each collection, in the store's natural order. */
    var collections: map<Category, seq<QuizRecord>>
    /** The calls that throw, and what they throw (an unreachable server,
        a rejected write, ...). Fixed for the lifetime of the store. */
    const failing: map<Call, Thrown>
    /** Every call made so far, in order. */
    ghost var log: seq<Call>

    ghost predicate Valid()
      reads this
    {
      forall c: Category :: c in collections
    }

    constructor (contents: map<Category, seq<QuizRecord>>, failing: map<Call, Thrown>)
      requires forall c: Category :: c in contents
      ensures Valid()
      ensures collections == contents && this.failing == failing && log == []
    {
      collections := contents;
      this.failing := failing;
      log := [];
    }

    /** `Model.find()`: every record of the collection. */
    method Find(c: Category) returns (r: Outcome<seq<QuizRecord>>)
      requires Valid()
      modifies this`log
      ensures log == old(log) + [FindAll(c)]
      ensures r == if FindAll(c) in failing then Threw(failing[FindAll(c)]) else Returned(collections[c])
    {
      log := log + [FindAll(c)];
      if FindAll(c) in failing {
        r := Threw(failing[FindAll(c)]);
      } else {
        r := Returned(collections[c]);
      }
    }

    /** `Model.countDocuments()`. */
    method CountDocuments(c: Category) returns (r: Outcome<nat>)
      requires Valid()
      modifies this`log
      ensures log == old(log) + [Count(c)]
      ensures r == if Count(c) in failing then Threw(failing[Count(c)]) else Returned(|collections[c]|)
    {
      log := log + [Count(c)];
      if Count(c) in failing {
        r := Threw(failing[Count(c)]);
      } else {
        r := Returned(|collections[c]|);
      }
    }

    /** `Model.findOne().skip(k)`: the record at offset `k`, or null when
        the collection has no record there. */
    method FindOneSkip(c: Category, k: nat) returns (r: Outcome<Option<QuizRecord>>)
      requires Valid()
      modifies this`log
      ensures log == old(log) + [FindOneAt(c, k)]
      ensures FindOneAt(c, k) in failing ==> r == Threw(failing[FindOneAt(c, k)])
      ensures FindOneAt(c, k) !in failing && k < |collections[c]| ==> r == Returned(Some(collections[c][k]))
      ensures FindOneAt(c, k) !in failing && k >= |collections[c]| ==> r == Returned(None)
    {
      log := log + [FindOneAt(c, k)];
      if FindOneAt(c, k) in failing {
        r := Threw(failing[FindOneAt(c, k)]);
      } else if k < |collections[c]| {
        r := Returned(Some(collections[c][k]));
      } else {
        r := Returned(None);
      }
    }

    /** `Model.deleteMany({})`: empties the collection and reports how many
        records it removed; a failing call removes nothing. */
    method DeleteMany(c: Category) returns (r: Outcome<nat>)
      requires Valid()
      modifies this`collections, this`log
      ensures Valid()
      ensures log == old(log) + [Clear(c)]
      ensures Clear(c) in failing ==> r == Threw(failing[Clear(c)])
      ensures Clear(c) !in failing ==> r == Returned(|old(collections)[c]|)
      ensures collections == old(collections)[c := if Clear(c) in failing then old(collections)[c] else []]
    {
      log := log + [Clear(c)];
      if Clear(c) in failing {
        r := Threw(failing[Clear(c)]);
      } else {
        r := Returned(|collections[c]|);
        collections := collections[c := []];
      }
    }

    /** `Model.insertMany(docs)`: appends the documents to the collection
        and returns them; a failing call inserts nothing. */
    method InsertMany(c: Category, docs: seq<QuizRecord>) returns (r: Outcome<seq<QuizRecord>>)
      requires Valid()
      modifies this`collections, this`log
      ensures Valid()
      ensures log == old(log) + [Insert(c)]
      ensures Insert(c) in failing ==> r == Threw(failing[Insert(c)])
      ensures Insert(c) !in failing ==> r == Returned(docs)
      ensures collections == old(collections)[c := old(collections)[c] + if Insert(c) in failing then [] else docs]
    {
      log := log + [Insert(c)];
      if Insert(c) in failing {
        r := Threw(failing[Insert(c)]);
        assert collections[c] + [] == collections[c];
      } else {
        r := Returned(docs);
        collections := collections[c := collections[c] + docs];
      }
    }
  }
}

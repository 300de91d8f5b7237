/**
  The application model as objects: each cat is an object whose alive flag is
  changed in place, and the App owns a growing list of distinct cats and the
  cursor. Every method is proved against the CatStore function it implements,
  through the abstract value App.State().
*/
module AppModel {
  import opened CatStore

  class Cat {
    const name: string
    const colour: string
    var alive: bool

    /** A new cat starts out alive. */
    constructor (name: string, colour: string)
      ensures this.name == name && this.colour == colour && alive
      ensures Rec() == NewRecord(name, colour)
    {
      this.name := name;
      this.colour := colour;
      alive := true;
    }

    /** The value this cat currently stands for. */
    function Rec(): Record
      reads this
    {
      Record(name, colour, alive)
    }

    /** The one transition of the flag: to dead. Name and colour cannot change. */
    method Kill()
      modifies this
      ensures !alive
      ensures Rec() == old(Rec()).(alive := false)
    {
      alive := false;
    }
  }

  class App {
    var cats: seq<Cat>
    var currentCat: int
    /** The value of each cat in `cats`, kept up to date by every method. */
    ghost var records: seq<Record>

    /** No cat object appears twice in the list. */
    ghost predicate Distinct()
      reads this
    {
      forall i, j :: 0 <= i < j < |cats| ==> cats[i] != cats[j]
    }

    /**
      The object invariant: the cats are distinct objects, `records` holds their
      current values, and the abstract state satisfies the store invariant.
    */
    ghost predicate Valid()
      reads this, cats
    {
      Distinct() &&
      |records| == |cats| &&
      (forall i :: 0 <= i < |cats| ==> records[i] == cats[i].Rec()) &&
      CatStore.Valid(State())
    }

    /** The abstract value of the model. */
    ghost function State(): Store
      reads this
    {
      Store(records, currentCat)
    }

    /** The model starts with the five seeded cats and the cursor on the first. */
    constructor ()
      ensures Valid() && State() == Seed()
      ensures forall i :: 0 <= i < |cats| ==> fresh(cats[i])
    {
      var gary := new Cat("Gary", "Ginger");
      var sally := new Cat("Sally", "Black");
      var harry := new Cat("Harry", "White");
      var tina := new Cat("Tina", "Tabby");
      var phil := new Cat("Phil", "Tabby");
      cats := [gary, sally, harry, tina, phil];
      records := Seed().cats;
      currentCat := 0;
    }

    method NextCat()
      requires Valid()
      modifies this
      ensures Valid() && cats == old(cats)
      ensures State() == CatStore.Next(old(State()))
    {
      currentCat := currentCat + 1;
      if currentCat > |cats| - 1 {
        currentCat := |cats| - 1;
      }
    }

    method PrevCat()
      requires Valid()
      modifies this
      ensures Valid() && cats == old(cats)
      ensures State() == Prev(old(State()))
    {
      currentCat := currentCat - 1;
      if currentCat < 0 {
        currentCat := 0;
      }
    }

    method NewCat(newCatName: string, newCatColour: string)
      requires Valid()
      modifies this
      ensures Valid()
      ensures |cats| == |old(cats)| + 1 && cats[..|old(cats)|] == old(cats) && fresh(cats[|old(cats)|])
      ensures State() == Append(old(State()), newCatName, newCatColour)
    {
      var cat := new Cat(newCatName, newCatColour);
      cats := cats + [cat];
      records := records + [cat.Rec()];
      currentCat := |cats| - 1;
    }

    method KillCat()
      requires Valid()
      modifies this, cats[currentCat]
      ensures Valid() && cats == old(cats) && currentCat == old(currentCat)
      ensures State() == KillCurrent(old(State()))
    {
      var cat := cats[currentCat];
      cat.Kill();
      records := records[currentCat := cat.Rec()];
    }
  }
}

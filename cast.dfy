/**
 * The actors and director lines of the detail view: the persons with one profession,
 * their names, joined with ", " (JavaScript's `Array.prototype.join`).
 */
module Cast {
  import opened Wrappers
  import opened Movies
  import Seqs

  const ActorProfession: string := "актеры"
  const DirectorProfession: string := "редакторы"
  const Separator: string := ", "

  /** `persons.filter((person) => person.profession === profession)`. */
  function WithProfession(persons: seq<Person>, profession: string): (r: seq<Person>)
    ensures forall p :: p in r <==> p in persons && p.profession == profession
  {
    Seqs.Filter(persons, (p: Person) => p.profession == profession)
  }

  /** `.map((person) => person.name)`. */
  function Names(persons: seq<Person>): (names: seq<string>)
    ensures |names| == |persons|
    ensures forall i :: 0 <= i < |persons| ==> names[i] == persons[i].name
  {
    seq(|persons|, i requires 0 <= i < |persons| => persons[i].name)
  }

  /** `names.join(separator)`: empty for no names, otherwise led by the first name. */
  function Join(names: seq<string>, separator: string): (line: string)
    ensures names == [] ==> line == ""
    ensures names != [] ==> names[0] <= line
    decreases |names|
  {
    if names == [] then ""
    else if |names| == 1 then names[0]
    else names[0] + separator + Join(names[1..], separator)
  }

  /**
   * The line for one profession; the empty string while the detail has no `persons`, and
   * also when nobody has that profession.
   */
  function Credits(persons: Option<seq<Person>>, profession: string): (line: string)
    ensures persons.None? ==> line == ""
    ensures persons.Some? && WithProfession(persons.value, profession) == [] ==> line == ""
  {
    match persons
    case None => ""
    case Some(ps) => Join(Names(WithProfession(ps, profession)), Separator)
  }

  /**
   * The line can be read back: at least one person has the profession, and none of those
   * persons has a comma in the name.
   */
  predicate Readable(persons: seq<Person>, profession: string) {
    var kept := WithProfession(persons, profession);
    kept != [] && forall i :: 0 <= i < |kept| ==> ',' !in kept[i].name
  }

  /**
   * `actors` in the detail view: empty without persons or actors; otherwise it reads back
   * as the actors' names when those are comma-free.
   */
  function Actors(movie: MovieDetail): (line: string)
    ensures movie.persons.None? ==> line == ""
    ensures movie.persons.Some? && WithProfession(movie.persons.value, ActorProfession) == [] ==> line == ""
    ensures movie.persons.Some? && Readable(movie.persons.value, ActorProfession) ==>
              SplitCredits(line) == Names(WithProfession(movie.persons.value, ActorProfession))
  {
    if movie.persons.Some? && Readable(movie.persons.value, ActorProfession) then
      CreditsNames(movie.persons.value, ActorProfession);
      Credits(movie.persons, ActorProfession)
    else Credits(movie.persons, ActorProfession)
  }

  /** `director` in the detail view, with the same guarantees for its profession. */
  function Director(movie: MovieDetail): (line: string)
    ensures movie.persons.None? ==> line == ""
    ensures movie.persons.Some? && WithProfession(movie.persons.value, DirectorProfession) == [] ==> line == ""
    ensures movie.persons.Some? && Readable(movie.persons.value, DirectorProfession) ==>
              SplitCredits(line) == Names(WithProfession(movie.persons.value, DirectorProfession))
  {
    if movie.persons.Some? && Readable(movie.persons.value, DirectorProfession) then
      CreditsNames(movie.persons.value, DirectorProfession);
      Credits(movie.persons, DirectorProfession)
    else Credits(movie.persons, DirectorProfession)
  }

  /**
   * With nobody of the profession the line is empty, and reading it back gives one empty
   * name rather than none: the read-back needs at least one name.
   */
  lemma NobodyGivesEmptyLine(persons: seq<Person>, profession: string)
    requires WithProfession(persons, profession) == []
    ensures Credits(Some(persons), profession) == ""
    ensures SplitCredits(Credits(Some(persons), profession)) == [""]
  {
  }

  /** The credits of a concatenation of person lists are the two credits lines joined. */
  lemma CreditsOfConcat(a: seq<Person>, b: seq<Person>, profession: string)
    requires WithProfession(a, profession) != [] && WithProfession(b, profession) != []
    ensures Credits(Some(a + b), profession) ==
              Credits(Some(a), profession) + Separator + Credits(Some(b), profession)
  {
    Seqs.FilterConcat(a, b, (p: Person) => p.profession == profession);
    var wa, wb := WithProfession(a, profession), WithProfession(b, profession);
    NamesOfConcat(wa, wb);
    JoinConcat(Names(wa), Names(wb), Separator);
  }

  lemma NamesOfConcat(a: seq<Person>, b: seq<Person>)
    ensures Names(a + b) == Names(a) + Names(b)
  {
    var l, r := Names(a + b), Names(a) + Names(b);
    assert |l| == |r|;
    forall k | 0 <= k < |l| ensures l[k] == r[k] {
      if k < |a| {
        assert (a + b)[k] == a[k];
      } else {
        assert (a + b)[k] == b[k - |a|];
      }
    }
  }

  lemma {:induction false} JoinConcat(a: seq<string>, b: seq<string>, separator: string)
    requires a != [] && b != []
    ensures Join(a + b, separator) == Join(a, separator) + separator + Join(b, separator)
    decreases |a|
  {
    if |a| > 1 {
      assert (a + b)[1..] == a[1..] + b;
      JoinConcat(a[1..], b, separator);
    }
  }

  /** The pieces of `s` between its commas. */
  function Pieces(s: string): (r: seq<string>)
    ensures |r| >= 1
    decreases |s|
  {
    if s == [] then [""]
    else
      var rest := Pieces(s[1..]);
      if s[0] == ',' then [""] + rest else [[s[0]] + rest[0]] + rest[1..]
  }

  /** Reads a credits line back: the pieces between commas, each after the first without its leading space. */
  function SplitCredits(s: string): (names: seq<string>)
    ensures |names| == |Pieces(s)| && names[0] == Pieces(s)[0]
    ensures forall k :: 1 <= k < |names| ==> names[k] == Unlead(Pieces(s)[k])
  {
    var p := Pieces(s);
    [p[0]] + seq(|p| - 1, i requires 0 <= i < |p| - 1 => Unlead(p[i + 1]))
  }

  /** `s` without its first character. */
  function Unlead(s: string): string {
    if s == [] then [] else s[1..]
  }

  lemma {:induction false} PiecesOfCommaFree(x: string, z: string)
    requires ',' !in x
    ensures Pieces(x + z) == [x + Pieces(z)[0]] + Pieces(z)[1..]
    decreases |x|
  {
    var p := Pieces(z);
    if x != [] {
      assert (x + z)[0] == x[0] && x[0] != ',' by {
        assert x[0] in x;
      }
      assert (x + z)[1..] == x[1..] + z;
      PiecesOfCommaFree(x[1..], z);
      var rest := Pieces(x[1..] + z);
      assert rest == [x[1..] + p[0]] + p[1..];
      assert rest[0] == x[1..] + p[0] && rest[1..] == p[1..];
      assert [x[0]] + (x[1..] + p[0]) == x + p[0];
    } else {
      assert x + z == z;
      assert p == [p[0]] + p[1..];
      assert x + p[0] == p[0];
    }
  }

  lemma {:induction false} PiecesOfJoin(names: seq<string>)
    requires names != []
    requires forall i :: 0 <= i < |names| ==> ',' !in names[i]
    ensures Pieces(Join(names, Separator)) ==
              [names[0]] + seq(|names| - 1, i requires 0 <= i < |names| - 1 => " " + names[i + 1])
    decreases |names|
  {
    if |names| == 1 {
      PiecesOfCommaFree(names[0], "");
      assert names[0] + "" == names[0];
    } else {
      var x, rest := names[0], names[1..];
      var j := Join(rest, Separator);
      assert Join(names, Separator) == x + (", " + j);
      PiecesOfCommaFree(x, ", " + j);
      assert (", " + j)[1..] == " " + j;
      assert Pieces(", " + j) == [""] + Pieces(" " + j);
      assert (" " + j)[1..] == j;
      assert Pieces(" " + j) == [" " + Pieces(j)[0]] + Pieces(j)[1..];
      PiecesOfJoin(rest);
      var tail := seq(|rest| - 1, i requires 0 <= i < |rest| - 1 => " " + rest[i + 1]);
      assert Pieces(j) == [rest[0]] + tail;
      var want := [names[0]] + seq(|names| - 1, i requires 0 <= i < |names| - 1 => " " + names[i + 1]);
      var pc := Pieces(", " + j);
      assert pc[0] == "" && pc[1..] == Pieces(" " + j);
      assert x + pc[0] == x;
      assert Pieces(Join(names, Separator)) == [x] + pc[1..];
      assert Pieces(Join(names, Separator)) == [x] + [" " + rest[0]] + tail;
      assert |want| == |names|;
      forall k | 0 <= k < |names| ensures want[k] == ([x] + [" " + rest[0]] + tail)[k] {
      }
    }
  }

  /**
   * A credits line determines its names when no name contains a comma: splitting it at ", "
   * gives back the names in their order.
   */
  lemma {:induction false} SplitJoin(names: seq<string>)
    requires names != []
    requires forall i :: 0 <= i < |names| ==> ',' !in names[i]
    ensures SplitCredits(Join(names, Separator)) == names
  {
    var line := Join(names, Separator);
    PiecesOfJoin(names);
    var p := Pieces(line);
    assert |p| == |names| && p[0] == names[0];
    assert forall k :: 1 <= k < |names| ==> p[k] == " " + names[k];
    var r := SplitCredits(line);
    forall k | 1 <= k < |names| ensures r[k] == names[k] {
      assert (" " + names[k])[1..] == names[k];
    }
  }

  /**
   * The names on a credits line are those of the persons with that profession, in the
   * order the detail lists them.
   */
  lemma {:induction false} CreditsNames(persons: seq<Person>, profession: string)
    requires Readable(persons, profession)
    ensures SplitCredits(Credits(Some(persons), profession)) == Names(WithProfession(persons, profession))
  {
    var kept := WithProfession(persons, profession);
    SplitJoin(Names(kept));
  }
}

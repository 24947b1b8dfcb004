/** Primary constructors with `init` validation, inheritance, data classes
    and generic classes (the `Kotlin classes` test class). */
module Classes {
  import opened Kotlin

  const DIGIT_MESSAGE := "the digit should never be zero or less"
  const EMPTY_NUMBER_MESSAGE := "a telephone number should never be empty"

  /** The properties of a `Telephone` (an `open class` with two `val`s). */
  datatype Telephone = Telephone(longDistanceDigit: int32, number: string)

  /** What the `init` block admits. */
  predicate Valid(t: Telephone)
  {
    t.longDistanceDigit > 0 && t.number != ""
  }

  /** `Telephone(longDistanceDigit, number)`: the `init` block throws on a
      non-positive digit first, then on an empty number. */
  function NewTelephone(longDistanceDigit: int32, number: string): (r: Outcome<Telephone>)
    ensures r.Returned? <==> longDistanceDigit > 0 && number != ""
    ensures r.Returned? ==> r.value.longDistanceDigit == longDistanceDigit && r.value.number == number
    ensures longDistanceDigit <= 0 ==> r == Threw(Exception(DIGIT_MESSAGE))
    ensures longDistanceDigit > 0 && number == "" ==> r == Threw(Exception(EMPTY_NUMBER_MESSAGE))
  {
    if longDistanceDigit <= 0 then Threw(Exception(DIGIT_MESSAGE))
    else if number == "" then Threw(Exception(EMPTY_NUMBER_MESSAGE))
    else Returned(Telephone(longDistanceDigit, number))
  }

  /** The constructor builds exactly the valid telephones, and every
      telephone it builds is valid. */
  lemma ConstructedIffValid(t: Telephone)
    ensures NewTelephone(t.longDistanceDigit, t.number) == Returned(t) <==> Valid(t)
    ensures forall d: int32, n: string :: NewTelephone(d, n).Returned? ==> Valid(NewTelephone(d, n).value)
  {
  }

  /** `BrazilianTelephone(number)`, a `Telephone` whose digit is fixed at 55. */
  function NewBrazilianTelephone(number: string): (r: Outcome<Telephone>)
    ensures r.Returned? <==> number != ""
    ensures r.Returned? ==> r.value == Telephone(55, number)
    ensures number == "" ==> r == Threw(Exception(EMPTY_NUMBER_MESSAGE))
  {
    NewTelephone(55, number)
  }

  /** `try { subject = e } catch (ex: Exception) { }`: the assignment only
      happens when `e` returns; an `Exception` is swallowed and leaves the
      subject as it was, while an `Error` propagates. */
  function TryAssign<T>(subject: Nullable<T>, e: Outcome<T>): (r: Outcome<Nullable<T>>)
    ensures e.Returned? ==> r == Returned(Some(e.value))
    ensures e.Threw? && IsException(e.error) ==> r == Returned(subject)
    ensures e.Threw? && !IsException(e.error) ==> r == Threw(e.error)
  {
    match e
    case Returned(v) => Returned(Some(v))
    case Threw(err) => if IsException(err) then Returned(subject) else Threw(err)
  }

  /** The `a class init method can contain validation logic` test:
      `Telephone(-41, "")` throws (the digit check comes first), so the
      subject stays null; a valid call stores both properties unchanged. */
  lemma InitValidation()
    ensures NewTelephone(-41, "") == Threw(Exception(DIGIT_MESSAGE))
    ensures TryAssign(Null, NewTelephone(-41, "")) == Returned(Null)
    ensures TryAssign(Null, NewTelephone(41, "9 9877-2345")) == Returned(Some(Telephone(41, "9 9877-2345")))
  {
  }

  /** The `an open class ...` test: the subclass keeps the number and has
      digit 55, and `BrazilianTelephone("")` fails in the inherited `init`. */
  lemma OpenClassInheritance(expectedPhone: string)
    requires expectedPhone != ""
    ensures NewBrazilianTelephone(expectedPhone).Returned?
    ensures NewBrazilianTelephone(expectedPhone).value.number == expectedPhone
    ensures NewBrazilianTelephone(expectedPhone).value.longDistanceDigit == 55
    ensures TryAssign(Null, NewBrazilianTelephone("")) == Returned(Null)
  {
  }

  /** `data class Contact(val name: String, val age: Int)`. */
  datatype Contact = Contact(name: string, age: int32)
  {
    /** `copy(age = age)`: a new contact with this name and the given age. */
    function CopyWithAge(age: int32): (r: Contact)
      ensures r.name == name && r.age == age
      ensures r == this <==> age == this.age
    {
      this.(age := age)
    }
  }

  /** The data-class test: `copy(age = age + 1)` keeps the name (the first
      component) and always changes the age, even at `Int.MAX_VALUE`. */
  lemma AgedCopy(subject: Contact)
    ensures subject.CopyWithAge(Add32(subject.age, 1)).name == subject.name
    ensures subject.CopyWithAge(Add32(subject.age, 1)).age != subject.age
  {
    Add32OneChanges(subject.age);
  }

  /** `MagicTelephone<E>(longDistanceDigit, number, genericThing)`, a local
      subclass of `Telephone` carrying a value of any type. */
  datatype MagicTelephone<E> = MagicTelephone(telephone: Telephone, genericThing: E)
  {
    /** `getThing()`. */
    function GetThing(): (r: E)
      ensures r == genericThing
    {
      genericThing
    }

    /** The overriding `toString()`: the number. */
    function ToString(): (r: string)
      ensures r == telephone.number
    {
      telephone.number
    }
  }

  /** The `MagicTelephone` constructor runs the inherited `init`. */
  function NewMagicTelephone<E>(longDistanceDigit: int32, number: string, genericThing: E): (r: Outcome<MagicTelephone<E>>)
    ensures r.Returned? <==> NewTelephone(longDistanceDigit, number).Returned?
    ensures r.Returned? ==> r.value.telephone == Telephone(longDistanceDigit, number)
    ensures r.Returned? ==> r.value.GetThing() == genericThing
    ensures r.Threw? ==> r.error == NewTelephone(longDistanceDigit, number).error
  {
    match NewTelephone(longDistanceDigit, number)
    case Returned(t) => Returned(MagicTelephone(t, genericThing))
    case Threw(e) => Threw(e)
  }

  /** The generic-class test: a telephone holding null gives null back, and
      one holding that telephone gives back a telephone with the number. */
  lemma GenericParameters()
    ensures NewMagicTelephone(55, "1234-4321", Nullable<int>.Null).Returned?
    ensures NewMagicTelephone(55, "1234-4321", Nullable<int>.Null).value.GetThing() == Null
    ensures var subject := NewMagicTelephone(55, "1234-4321", Nullable<int>.Null).value;
            var second := NewMagicTelephone(55, "1234-4321", subject);
            second.Returned? && second.value.GetThing().telephone.number == "1234-4321"
    ensures NewMagicTelephone(55, "1234-4321", Nullable<int>.Null).value.ToString() == "1234-4321"
  {
  }
}

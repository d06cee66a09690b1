/** hold_any: a holder of one value of any type, keeping the value's type beside it.
    The function-pointer table identifies the held type and the object word (the
    field `obj` here) holds the value; an empty holder holds the value of the
    internal `empty` type. */
module HoldAny {
  import opened Strings

  /** The dynamic type of a held value: the internal `empty` type, std::string,
      a const char* pointer, or any other type by name. */
  datatype TypeTag = EmptyType | StringType | CharPtrType | OtherType(name: string)

  /** The stored value, opaque except for strings and pointers. */
  datatype Datum = Nil | Text(s: string) | Address(a: nat) | Bits(v: nat)

  /** An argument of static type `tag` and value `datum`. */
  datatype Typed = Typed(tag: TypeTag, datum: Datum)

  /** A cast's outcome: the held value, or bad_any_cast with the held and the
      requested type. */
  datatype CastResult = Value(datum: Datum) | BadAnyCast(from: TypeTag, to: TypeTag)

  class Holder {
    var table: TypeTag
    var obj: Datum

    /** basic_hold_any(): empty. */
    constructor ()
      ensures table == EmptyType && obj == Nil
    {
      table := EmptyType;
      obj := Nil;
    }

    /** basic_hold_any(T const& x): holds x with its type. A const char* argument
        never reaches this template: overload resolution prefers the non-template
        constructor below. */
    constructor FromValue(x: Typed)
      requires x.tag != CharPtrType
      ensures table == x.tag && obj == x.datum
    {
      table := x.tag;
      obj := x.datum;
    }

    /** basic_hold_any(const char* x): the holder gets std::string's table and the
        characters as a std::string. This is the intended result; it assumes that a
        std::string fits in the one-word object field, since the source always
        constructs it there in place. */
    constructor FromCString(s: string)
      ensures table == StringType && obj == Text(s)
    {
      table := StringType;
      obj := Text(s);
    }

    /** basic_hold_any(basic_hold_any const& x): starts empty, then assigns x. */
    constructor Copy(x: Holder)
      ensures table == x.table && obj == x.obj
    {
      table := x.table;
      obj := x.obj;
    }

    /** assign(basic_hold_any const& x): takes x's type and value; assigning a holder
        to itself changes nothing. */
    method Assign(x: Holder)
      modifies this
      ensures table == old(x.table) && obj == old(x.obj)
    {
      if x != this {
        table := x.table;
        obj := x.obj;
      }
    }

    /** assign(T const& x) and operator=: takes x's static type and value, whatever
        was held before. A const char* assigned this way stays a pointer. */
    method AssignValue(x: Typed)
      modifies this
      ensures table == x.tag && obj == x.datum
    {
      table := x.tag;
      obj := x.datum;
    }

    /** swap(x): exchanges the table pointers and the object words. */
    method Swap(x: Holder)
      modifies this, x
      ensures table == old(x.table) && obj == old(x.obj)
      ensures x.table == old(table) && x.obj == old(obj)
    {
      var t, o := table, obj;
      table, obj := x.table, x.obj;
      x.table, x.obj := t, o;
    }

    /** type() */
    function Type(): (t: TypeTag)
      reads this
      ensures t == table
    {
      table
    }

    /** empty(): the table is that of the empty type. */
    predicate Empty()
      reads this
    {
      table == EmptyType
    }

    /** reset(): a non-empty holder deletes its value and becomes empty; an empty one
        is left alone. */
    method Reset()
      modifies this
      ensures Empty()
      ensures old(Empty()) ==> obj == old(obj)
      ensures !old(Empty()) ==> obj == Nil
    {
      if !Empty() {
        table := EmptyType;
        obj := Nil;
      }
    }

    /** cast<T>(): the value when the held type is T, otherwise bad_any_cast. */
    function Cast(t: TypeTag): (r: CastResult)
      reads this
      ensures r.Value? <==> table == t
      ensures r.Value? ==> r.datum == obj
      ensures r.BadAnyCast? ==> r.from == table && r.to == t
    {
      if table != t then BadAnyCast(table, t) else Value(obj)
    }
  }

  /** any_cast<T>(basic_hold_any* operand): the held value for a non-null operand
      holding a T, otherwise the null pointer. */
  function AnyCastPtr(operand: Holder?, t: TypeTag): (r: Option<Datum>)
    reads operand
    ensures r.Some? <==> operand != null && operand.table == t
    ensures r.Some? ==> r.value == operand.obj
  {
    if operand != null && operand.Type() == t then Some(operand.obj) else None
  }

  /** any_cast<T>(basic_hold_any& operand): the pointer form, throwing bad_any_cast
      where it would give null. */
  function AnyCastRef(operand: Holder, t: TypeTag): (r: CastResult)
    reads operand
    ensures r.Value? <==> operand.table == t
    ensures r.Value? ==> r.datum == operand.obj
    ensures r.BadAnyCast? ==> r.from == operand.table && r.to == t
  {
    match AnyCastPtr(operand, t)
    case None => BadAnyCast(operand.Type(), t)
    case Some(d) => Value(d)
  }

  /** The reference any_cast agrees with the member cast<T>(). */
  lemma AnyCastRefIsCast(operand: Holder, t: TypeTag)
    ensures AnyCastRef(operand, t) == operand.Cast(t)
  {
  }

  /** The pointer form gives null exactly where the reference form throws. */
  lemma PointerNullIffReferenceThrows(operand: Holder, t: TypeTag)
    ensures AnyCastPtr(operand, t).None? <==> AnyCastRef(operand, t).BadAnyCast?
  {
  }

  /** A null operand never casts. */
  lemma NullOperandCastsToNull(t: TypeTag)
    ensures AnyCastPtr(null, t) == None
  {
  }

  // ---------------------------------------------------------------------------
  // What callers can rely on

  /** A default-constructed holder is empty, and casts only to the empty type. */
  method DefaultIsEmpty(t: TypeTag) returns (h: Holder)
    ensures h.Empty()
    ensures h.Cast(EmptyType) == Value(Nil)
    ensures t != EmptyType ==> h.Cast(t) == BadAnyCast(EmptyType, t)
  {
    h := new Holder();
  }

  /** Constructed from x of type T, the holder has type T, cast<T> gives x, and a
      cast to any other type throws. */
  method ConstructThenCast(x: Typed, other: TypeTag) returns (h: Holder)
    requires x.tag != CharPtrType
    ensures h.Type() == x.tag && h.Cast(x.tag) == Value(x.datum)
    ensures other != x.tag ==> h.Cast(other) == BadAnyCast(x.tag, other)
  {
    h := new Holder.FromValue(x);
  }

  /** A const char* argument is intended to be held as a std::string (assuming the
      string fits in the object word): cast to std::string works, cast to const char*
      throws. */
  method CStringHeldAsString(s: string) returns (h: Holder)
    ensures h.Type() == StringType && h.Cast(StringType) == Value(Text(s))
    ensures h.Cast(CharPtrType) == BadAnyCast(StringType, CharPtrType)
  {
    h := new Holder.FromCString(s);
  }

  /** Assigning a value replaces whatever was held, type included. */
  method AssignValueReplaces(before: Typed, x: Typed) returns (h: Holder)
    ensures h.Type() == x.tag && h.Cast(x.tag) == Value(x.datum)
  {
    h := new Holder();
    h.AssignValue(before);
    h.AssignValue(x);
  }

  /** Assigning from another holder copies its type and value and leaves it as it
      was; assigning a holder to itself keeps its contents. */
  method AssignCopies(x: Typed, y: Typed) returns (a: Holder, b: Holder)
    ensures a.table == y.tag && a.obj == y.datum
    ensures b.table == y.tag && b.obj == y.datum
  {
    a := new Holder();
    a.AssignValue(x);
    b := new Holder();
    b.AssignValue(y);
    a.Assign(b);
    b.Assign(b);
  }

  /** The copy constructor gives an equal, separate holder. */
  method CopyIsIndependent(x: Typed, y: Typed) returns (original: Holder, copy: Holder)
    ensures original != copy
    ensures original.table == x.tag && original.obj == x.datum
    ensures copy.table == y.tag && copy.obj == y.datum
  {
    original := new Holder();
    original.AssignValue(x);
    copy := new Holder.Copy(original);
    copy.AssignValue(y);
  }

  /** reset leaves the holder empty, and a second reset changes nothing. */
  method ResetTwice(x: Typed) returns (once: Holder, twice: Holder)
    ensures once.Empty() && twice.Empty()
    ensures once.obj == twice.obj
    ensures x.tag != EmptyType ==> once.obj == Nil
  {
    once := new Holder();
    once.AssignValue(x);
    once.Reset();
    twice := new Holder();
    twice.AssignValue(x);
    twice.Reset();
    twice.Reset();
  }

  /** swap exchanges the contents of two holders. */
  method SwapExchanges(x: Typed, y: Typed) returns (a: Holder, b: Holder)
    ensures a.table == y.tag && a.obj == y.datum
    ensures b.table == x.tag && b.obj == x.datum
  {
    a := new Holder();
    a.AssignValue(x);
    b := new Holder();
    b.AssignValue(y);
    a.Swap(b);
  }

  /** Swapping twice restores both holders; swapping a holder with itself keeps it. */
  method SwapTwiceRestores(x: Typed, y: Typed) returns (a: Holder, b: Holder)
    ensures a.table == x.tag && a.obj == x.datum
    ensures b.table == y.tag && b.obj == y.datum
  {
    a := new Holder();
    a.AssignValue(x);
    b := new Holder();
    b.AssignValue(y);
    a.Swap(b);
    b.Swap(a);
    a.Swap(a);
  }
}

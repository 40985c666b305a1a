/** Values that a configuration attribute can hold, and the field-map view of
    a serialised configuration record. Both product families serialise their
    whole record as one flat object from attribute name to value. */
module Fields {

  datatype Option<+T> = None | Some(value: T)

  /** The shape of an attribute's value as it appears in the serialised record. */
  datatype Kind = IntKind | RealKind | BoolKind | StrKind | IntsKind | RealsKind

  /** One serialised value: an integer, a floating-point number (modelled as a
      real), a boolean, a string, or a list of integers or of numbers. */
  datatype Value =
    | Int(i: int)
    | Real(r: real)
    | Bool(b: bool)
    | Str(s: string)
    | Ints(ints: seq<int>)
    | Reals(reals: seq<real>)
  {
    function KindOf(): Kind {
      match this
      case Int(_) => IntKind
      case Real(_) => RealKind
      case Bool(_) => BoolKind
      case Str(_) => StrKind
      case Ints(_) => IntsKind
      case Reals(_) => RealsKind
    }
  }
}

/** Type annotations as the schema compiler sees them through
    `typing.get_origin` and `typing.get_args`. Only the shape matters to the
    compiler: whether an annotation is a parameterised `tuple` or `dict`, and
    what its arguments are. */
module PyTypes {
  import opened Common

  /** The class `typing.get_origin` reports for a parameterised annotation. */
  datatype Origin = TupleOrigin | DictOrigin | ListOrigin | OtherOrigin(name: string)

  /** An annotation. */
  datatype Ty =
    | AnyTy                                       // typing.Any
    | EllipsisTy                                  // the `...` in `tuple[X, ...]`
    | ClassTy(name: string)                       // a plain class such as `int`, `str`, bare `tuple`
    | GenericTy(origin: Origin, args: seq<Ty>)    // `origin[args...]`, e.g. `tuple[int, ...]`
  {
    /** `typing.get_origin(t)`: `None` for anything that is not parameterised. */
    function Origin(): Option<Origin> {
      if GenericTy? then Some(origin) else None
    }

    /** `typing.get_args(t)`: empty for anything that is not parameterised. */
    function Args(): seq<Ty> {
      if GenericTy? then args else []
    }
  }

  const StrTy: Ty := ClassTy("str")

  /** `list[t]` */
  function ListOf(t: Ty): Ty {
    GenericTy(ListOrigin, [t])
  }

  /** `dict[k, v]` */
  function DictOf(k: Ty, v: Ty): Ty {
    GenericTy(DictOrigin, [k, v])
  }

  /** `tuple[args...]` */
  function TupleOf(args: seq<Ty>): Ty {
    GenericTy(TupleOrigin, args)
  }
}

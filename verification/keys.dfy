/** Identity and measurement of a metric: Unit, Role and Key (all immutable values). */
module Keys {

  /** A measurement unit, known by its name. How units convert into each other is
      not modelled here: operations that convert take a Converter. */
  datatype Unit = Unit(name: string)

  /** A category of measurement carrying its default unit. */
  datatype Role = Role(name: string, unit: Unit)

  /** The identity of a metric; two keys are equal iff name and role are equal. */
  datatype Key = Key(name: string, role: Role)

  /** `convert(target, value, source)` rescales `value`, given in `source`,
      into `target` (the receiver of `Unit.convert` in the Java code). */
  type Converter = (Unit, real, Unit) -> real
}

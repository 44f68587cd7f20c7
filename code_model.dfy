/**
 * The part of the editor's code model that the generator reads, as plain
 * values: the kind of element, its names, its function kind, its
 * parameters with their type strings, its return type string and the name
 * of the class it belongs to. A missing element is Option.None.
 */
module CodeModel {
  import opened Wrappers

  datatype ElementKind = Namespace | Class | Struct | Union | Enum | Variable | Function

  datatype FunctionKind = Ordinary | Constructor | Destructor

  datatype Parameter = Parameter(name: string, typeName: string)

  datatype CodeElement = CodeElement(
    kind: ElementKind,
    name: string,
    fullName: string,
    functionKind: FunctionKind,
    parameters: seq<Parameter>,
    typeName: string,
    parentClass: Option<string>)
  {
    predicate IsFunction() { kind == Function }

    predicate IsVariable() { kind == Variable }

    predicate IsConstructor() { functionKind == Constructor }

    predicate IsDestructor() { functionKind == Destructor }
  }
}

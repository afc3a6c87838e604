/**
 * The closed tagged union of drawing commands kept in the command log.
 * `UnknownCommand` stands for a log entry whose `type` tag no renderer is
 * registered for (the log is typed `DrawingCommand<any>[]`).
 */
module Commands {
  import opened Geometry

  datatype CommandType =
    | MoveToType
    | SetThicknessType
    | DrawDoorType
    | DrawWindowType
    | DrawBedType
    | DrawLineType
    | OtherType(name: string)

  datatype Command =
    | MoveToCommand(target: Point)
    | SetThicknessCommand(thickness: LineThickness)
    | DrawDoorCommand(width: real, doorType: DoorType, orientation: Orientation)
    | DrawWindowCommand(length: real, isHorizontal: bool)
    | DrawLineCommand(start: Point, end: Point, thickness: LineThickness)
    | DrawBedCommand(width: real, length: real, orientation: Orientation)
    | UnknownCommand(name: string)
  {
    /** The command's `type` tag. */
    function Type(): CommandType {
      match this
      case MoveToCommand(_) => MoveToType
      case SetThicknessCommand(_) => SetThicknessType
      case DrawDoorCommand(_, _, _) => DrawDoorType
      case DrawWindowCommand(_, _) => DrawWindowType
      case DrawLineCommand(_, _, _) => DrawLineType
      case DrawBedCommand(_, _, _) => DrawBedType
      case UnknownCommand(name) => OtherType(name)
    }
  }
}

/** Values shared by every part of the M48 Z-probe repeatability model. */
module Types {

  datatype Option<+T> = None | Some(value: T)

  /** What the G-code parser's `value_byte()` returns: an unsigned 8-bit value. */
  type byte = b: int | 0 <= b < 256

  /** A position in the XY plane, in machine coordinates (millimetres). */
  datatype Point = Point(x: real, y: real)

  /** The printable bed of a rectangular machine: X_MIN_BED .. X_MAX_BED, Y_MIN_BED .. Y_MAX_BED. */
  datatype Bed = Bed(xMin: real, xMax: real, yMin: real, yMax: real)

  predicate WellFormed(bed: Bed) {
    bed.xMin <= bed.xMax && bed.yMin <= bed.yMax
  }

  predicate InBed(bed: Bed, p: Point) {
    bed.xMin <= p.x <= bed.xMax && bed.yMin <= p.y <= bed.yMax
  }

  /** What the probe does after each reading: only raise it (PROBE_PT_RAISE) or stow it (PROBE_PT_STOW). */
  datatype RaiseMode = RaiseAfter | StowAfter

  /** One call into a collaborator of the repeatability test, in the order the machine sees them. */
  datatype Event =
    | LevelingOff                                          // bedlevel.set_bed_leveling_enabled(false)
    | Setup                                                // setup_for_endstop_or_probe_move()
    | Probe(at: Point, raise: RaiseMode, verbosity: int)   // probe.check_pt(x, y, raise, verbosity)
    | Move(to: Point)                                      // do_blocking_move_to_xy(x, y)
    | Stow                                                 // STOW_PROBE()
    | Finished                                             // the "Finished!" summary
    | CleanUp                                              // clean_up_after_endstop_or_probe_move()
    | LevelingRestored                                     // bedlevel.restore_bed_leveling_state()
    | PositionReported                                     // report_current_position()
}

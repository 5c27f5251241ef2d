/** The Build HAT devices the controllers drive, seen only through the
    commands sent to them. A controller's effect on the hardware is the
    sequence of these commands it appends to its log, in call order. */
module Hardware {

  /** The two pan/tilt motors: `_motor_x` (horizontal) and `_motor_y` (vertical). */
  datatype Motor = MotorX | MotorY

  /** The four eye LEDs of the distance sensor:
      (right upper, left upper, right lower, left lower). */
  type EyeValues = (int, int, int, int)

  datatype Command =
    | Pwm(motor: Motor, duty: real)                 // `motor.pwm(duty)`
    | RunToPosition(motor: Motor, position: int)    // `motor.run_to_position(position, blocking=False)`
    | Eyes(values: EyeValues)                       // `sensor.eyes(*values)`
}

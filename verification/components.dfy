/** The parts of a spacecraft that its configuration can leave out, and one spacecraft's choice. */
module Components {
  /** The applications and components with a switch of their own, and the truth interface. */
  datatype Component =
    | Cf | Ds | Fm | Lc | Sbn | Sc
    | Adcs | Cam | Css | Eps | Fss | Gps | Imu | Mag | Mgr | Radio | RaspberryPi | Rw | Sample | St | Syn
    | Tmp100 | ThermalControl | Heater | Torquer | Thruster | Truth

  /** The components whose switch reads `true`. */
  datatype Spacecraft = Spacecraft(enabled: set<Component>)
}

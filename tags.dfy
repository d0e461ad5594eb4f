/**
 * The owner tags the firmware passes to the output managers: 'gas', 'rfid',
 * 'steam' and 'motion' for the RGB strip, 'gas', 'rfid', 'environment' and
 * 'button' for the display.
 */
module Tags {
  datatype Tag = Gas | Rfid | Steam | Motion | Environment | Button
}

/** What the PC-9801 handlers ask of the devices around them. The devices
    themselves (i8259 PICs, i8255 PPIs, uPD765 FDCs, SASI bus, the CPU's
    reset and A20 lines, the uPD7220 GDCs and the IPL ROM bank) are not
    modelled: a handler returns the calls it makes, in order, as values. */
module Pc98Bus {

  /** The two floppy controllers: 2HD (1 MB) and 2DD (640 KB). */
  datatype Fdc = Fdc2hd | Fdc2dd

  datatype Effect =
    | CpuA20(enabled: bool)                  // INPUT_LINE_A20 level
    | CpuResetPulse                          // INPUT_LINE_RESET pulsed
    | PorCleared                             // system PPI port C bit 5 cleared
    | IplBank(bank: bv8)                     // ipl_bank set_bank
    | RtcPins(c0: bool, c1: bool, c2: bool, stb: bool, clk: bool, din: bool)
    | PicWrite(slave: bool, reg: nat, data: bv8)
    | SlaveIr1(level: bool)                  // pic2 ir1: IDE / SASI interrupt
    | SlaveIr5Pulse                          // pic2 ir5 low then high: mouse
    | FdcSoftReset(fdc: Fdc)
    | FdcReadyConnected(fdc: Fdc, connected: bool)
    | FdcReadyLow(fdc: Fdc)
    | FdcMotorLine(fdc: Fdc, drive: nat, asserted: bool)  // mon_w level
    | DriveRpm(drive: nat, rpm: nat)         // 2HD drives' spindle speed
    | FdcRate(fdc: Fdc, rate: nat)           // data rate in bit/s
    | SasiSel(level: bool)
    | SasiRst(level: bool)
    | BeeperOn(on: bool)                     // beeper set_state
}

/**
 The part of the ESP-IDF LEDC (LED PWM controller) driver that the PWM task
 talks to, seen from the outside only: the channel configuration record the
 task fills in, and the calls it issues, as plain values. What the driver
 does with a call, and the esp_err_t it returns, is not modelled.
 */
module Ledc {

  /** ledc_mode_t: the speed group a channel belongs to. */
  datatype SpeedMode = HighSpeedMode | LowSpeedMode

  /** The six settings of a ledc_channel_config_t that the program writes. */
  datatype ChannelSettings = ChannelSettings(
    channel: int,
    duty: int,
    gpioNum: int,
    speedMode: SpeedMode,
    hpoint: int,
    timerSel: int)

  /** One call into the driver, recorded with its arguments. */
  datatype Call =
    | ChannelConfig(settings: ChannelSettings)          // ledc_channel_config
    | SetDuty(mode: SpeedMode, channel: int, duty: int) // ledc_set_duty: stage a duty
    | UpdateDuty(mode: SpeedMode, channel: int)         // ledc_update_duty: latch it

  /**
   A ledc_channel_config_t in memory. Besides the six fields the program
   writes it has fields the program never touches, such as the interrupt
   type and the flags (which others exist depends on the driver version);
   intrType and flags stand for them. A value declared on the stack starts
   with unknown contents, so the constructor promises nothing about any
   field.
   */
  class ChannelConfigStruct {
    var channel: int
    var duty: int
    var gpioNum: int
    var speedMode: SpeedMode
    var hpoint: int
    var timerSel: int
    var intrType: int
    var flags: int

    constructor Uninitialized()
    {
    }

    /** The six written fields, as a value. */
    function Settings(): ChannelSettings
      reads this
    {
      ChannelSettings(channel, duty, gpioNum, speedMode, hpoint, timerSel)
    }
  }
}

/** The A/D converter driver over the registers ADMUX, ADCSRA, ADCL and ADCH
    (avr_adc.cc). */
module AvrAdc {

  /** Bit numbers and masks in ADCSRA. */
  const ADEN: bv8 := 0x80          // 1 << ADEN: converter enable
  const ADSC: bv8 := 0x40          // 1 << ADSC: start conversion, set while converting
  const ADC_PRESCALE: bv8 := 0x04  // default prescaler setting
  /** Polls of ADSC before read_once gives up. */
  const ADC_RETRIES: nat := 10000
  /** What read_once returns on a timeout. */
  const TIMEOUT: nat := 0xFFFF

  /** The two result registers, for the order in which they are read. */
  datatype ResultRegister = Low | High

  /** ADMUX with its channel bits replaced: `(admux & 0xF8) | (channel & 0x07)`. */
  function SelectChannel(admux: bv8, channel: bv8): (r: bv8)
    ensures r & 0xF8 == admux & 0xF8
    ensures r & 0x07 == channel & 0x07
  {
    (admux & 0xF8) | (channel & 0x07)
  }

  /** ADCSRA after `|= (1 << ADSC)`. */
  function WithStart(adcsra: bv8): (r: bv8)
    ensures r & ADSC == ADSC
    ensures r & !ADSC == adcsra & !ADSC
  {
    adcsra | ADSC
  }

  /** True while ADSC is set. */
  predicate Converting(adcsra: bv8)
  {
    adcsra & ADSC != 0
  }

  /** The two result bytes joined as written, `high * 0xFF + low`. */
  function Combine(high: bv8, low: bv8): (v: nat)
    ensures v <= 255 * 255 + 255
    ensures v < TIMEOUT
  {
    high as nat * 0xFF + low as nat
  }

  /** The multiplier 0xFF (255, not 256) makes different byte pairs give the
      same reading. */
  lemma CombineCollides()
    ensures Combine(1, 0) == Combine(0, 255)
  {
  }

  /** No byte pair joins to the timeout sentinel. */
  lemma ReadingIsNeverSentinel(high: bv8, low: bv8)
    ensures Combine(high, low) != TIMEOUT
    ensures Combine(0xFF, 0xFF) == 65280
  {
  }

  /** Channel selection keeps the upper five bits and puts `channel mod 8` in the
      low three. */
  lemma SelectChannelBits(admux: bv8, channel: bv8, k: nat)
    requires k < 8
    ensures (SelectChannel(admux, channel) >> k) & 1 ==
            if k < 3 then (channel >> k) & 1 else (admux >> k) & 1
  {
  }

  /** The low three bits of the selected ADMUX, read as a number, are the
      channel number modulo 8. */
  lemma ChannelModEight(admux: bv8, channel: bv8)
    ensures (SelectChannel(admux, channel) & 0x07) as int == channel as int % 8
  {
  }

  /** A conversion read with read_once timed out when ADSC was still set on
      every poll up to and including the one after the counter passed
      ADC_RETRIES. */
  ghost predicate TimesOut(busy: nat -> bool)
  {
    forall c :: 0 <= c <= ADC_RETRIES + 1 ==> busy(c)
  }

  /** The converter and its four registers. `dataReads` records the order in
      which the result registers are read. */
  class Adc {
    var admux: bv8
    var adcsra: bv8
    var adcl: bv8
    var adch: bv8
    var dataReads: seq<ResultRegister>

    /** Reference voltage AVCC, converter on, default prescaler. */
    constructor ()
      ensures admux == 0 && adcsra == ADEN | ADC_PRESCALE
      ensures !Converting(adcsra)
      ensures dataReads == []
    {
      admux := 0;
      adcsra := ADEN | ADC_PRESCALE;
      adcl, adch := 0, 0;
      dataReads := [];
    }

    /** startConversion: select the channel, set ADSC, do not wait. */
    method StartConversion(channel: bv8) returns (ok: bool)
      modifies this
      ensures ok
      ensures admux == SelectChannel(old(admux), channel)
      ensures adcsra == WithStart(old(adcsra)) && Converting(adcsra)
      ensures adcl == old(adcl) && adch == old(adch) && dataReads == old(dataReads)
    {
      admux := admux & 0xF8;
      admux := admux | (channel & 0x07);
      adcsra := adcsra | ADSC;
      ok := true;
    }

    /** convertDone as written: it reports true while ADSC is still set. */
    method ConvertDone() returns (status: bool)
      ensures status <==> Converting(adcsra)
    {
      status := false;
      if adcsra & ADSC != 0 {
        status := true;
      }
    }

    /** getValue: read ADCL, then ADCH, and join them as written. */
    method GetValue() returns (v: nat)
      modifies this`dataReads
      ensures v == Combine(adch, adcl)
      ensures dataReads == old(dataReads) + [Low, High]
    {
      var low := adcl;
      dataReads := dataReads + [Low];
      var high := adch;
      dataReads := dataReads + [High];
      v := high as nat * 0xFF + low as nat;
    }

    /** The converter hardware finishing a conversion: the result lands in
        ADCH:ADCL and ADSC clears. An event interleaved between task steps. */
    method HardwareComplete(high: bv8, low: bv8)
      modifies this
      ensures adcsra == old(adcsra) & !ADSC && !Converting(adcsra)
      ensures adch == high && adcl == low
      ensures admux == old(admux) && dataReads == old(dataReads)
    {
      adcsra := adcsra & !ADSC;
      adch, adcl := high, low;
    }

    /** read_once: select the channel, start a conversion and poll ADSC.
        `busy(c)` is ADSC as the poll with counter value `c` sees it; when the
        hardware finishes it leaves `high:low` in the result registers. */
    method ReadOnce(channel: bv8, busy: nat -> bool, high: bv8, low: bv8) returns (v: nat)
      modifies this
      ensures admux == SelectChannel(old(admux), channel)
      ensures TimesOut(busy) ==> v == TIMEOUT && adcsra == WithStart(old(adcsra))
      ensures TimesOut(busy) ==> adch == old(adch) && adcl == old(adcl) && dataReads == old(dataReads)
      ensures !TimesOut(busy) ==> v == Combine(high, low) && adch == high && adcl == low
      ensures !TimesOut(busy) ==> adcsra == WithStart(old(adcsra)) & !ADSC
      ensures !TimesOut(busy) ==> dataReads == old(dataReads) + [Low, High]
    {
      var _ := StartConversion(channel);
      v := PollAndRead(busy, high, low);
    }

    /** read_once after the conversion has been started: poll ADSC until it
        clears or the counter passes ADC_RETRIES, then read the result. */
    method PollAndRead(busy: nat -> bool, high: bv8, low: bv8) returns (v: nat)
      modifies this
      ensures admux == old(admux)
      ensures TimesOut(busy) ==> v == TIMEOUT && adcsra == old(adcsra)
      ensures TimesOut(busy) ==> adch == old(adch) && adcl == old(adcl) && dataReads == old(dataReads)
      ensures !TimesOut(busy) ==> v == Combine(high, low) && adch == high && adcl == low
      ensures !TimesOut(busy) ==> adcsra == old(adcsra) & !ADSC
      ensures !TimesOut(busy) ==> dataReads == old(dataReads) + [Low, High]
    {
      var counter: nat := 0;
      while busy(counter)
        invariant counter <= ADC_RETRIES + 1
        invariant forall c :: 0 <= c < counter ==> busy(c)
        decreases ADC_RETRIES + 1 - counter
      {
        if counter > ADC_RETRIES {
          return TIMEOUT;
        }
        counter := counter + 1;
      }
      HardwareComplete(high, low);
      v := GetValue();
    }
  }

  /** Polling right after startConversion, with no hardware event in between,
      always reports "done", because ADSC has just been set. */
  method DoneRightAfterStart(adc: Adc, channel: bv8) returns (done: bool)
    modifies adc
    ensures done
  {
    var _ := adc.StartConversion(channel);
    done := adc.ConvertDone();
  }

  /** Once the hardware has finished, convertDone reports false. */
  method NotDoneAfterCompletion(adc: Adc, high: bv8, low: bv8) returns (done: bool)
    modifies adc
    ensures !done
  {
    adc.HardwareComplete(high, low);
    done := adc.ConvertDone();
  }
}

/** The three fixed-layout messages a world channel writes: the population
    report and the port report it sends to the center server, and the
    redirect it sends a client whose channel change succeeded. Each encoder is
    the sequence of writer calls of the channel; each decoder is the reading
    the receiving side makes of it, and the lemmas show that the two are
    inverse to each other. */
module ChannelPackets {
  import opened LittleEndian
  import opened Wrappers

  /** Population changed: opcode, channel id, connected count as a 16-bit
      field. The writer is created with room for 3 bytes and grows to the
      4 that are written. */
  function PopulationChanged(opcode: byte, channel: byte, count: int): (m: seq<byte>)
    ensures |m| == 4
    ensures m[0] == opcode && m[1] == channel
    ensures Unsigned(m[2..]) == count % 0x1_0000
  {
    Byte(opcode as int) + Byte(channel as int) + Short(count)
  }

  datatype Population = Population(opcode: byte, channel: byte, count: int)

  function DecodePopulation(m: seq<byte>): (r: Option<Population>)
    ensures r.Some? <==> |m| == 4
    ensures r.Some? ==> 0 <= r.value.count < 0x1_0000
  {
    if |m| == 4 then Some(Population(m[0], m[1], Unsigned(m[2..]))) else None
  }

  /** The center reads back the opcode, the channel and the count modulo
      2^16 (the count goes out as a Java short). */
  lemma PopulationRoundTrip(opcode: byte, channel: byte, count: int)
    ensures DecodePopulation(PopulationChanged(opcode, channel, count))
         == Some(Population(opcode, channel, count % 0x1_0000))
  {
  }

  /** Every 4-byte message is the population report of what it decodes to. */
  lemma PopulationDecodeInverse(m: seq<byte>)
    requires DecodePopulation(m).Some?
    ensures var f := DecodePopulation(m).value;
            PopulationChanged(f.opcode, f.channel, f.count) == m
  {
    var f := DecodePopulation(m).value;
    var e := PopulationChanged(f.opcode, f.channel, f.count);
    UnsignedInjective(e[2..], m[2..]);
    assert e == e[..2] + e[2..] && m == m[..2] + m[2..];
  }

  /** Channel port changed: opcode, world id, channel id, port as a 32-bit
      field. The writer is created with room for 4 bytes and grows to the 7
      that are written. */
  function ChannelPortChanged(opcode: byte, world: byte, channel: byte, port: int32): (m: seq<byte>)
    ensures |m| == 7
    ensures m[0] == opcode && m[1] == world && m[2] == channel
    ensures Signed(m[3..]) == port
  {
    SignedField(port, 4);
    Byte(opcode as int) + Byte(world as int) + Byte(channel as int) + Int(port)
  }

  datatype PortChange = PortChange(opcode: byte, world: byte, channel: byte, port: int)

  function DecodePortChange(m: seq<byte>): (r: Option<PortChange>)
    ensures r.Some? <==> |m| == 7
    ensures r.Some? ==> -0x8000_0000 <= r.value.port < 0x8000_0000
  {
    if |m| == 7 then Some(PortChange(m[0], m[1], m[2], Signed(m[3..]))) else None
  }

  lemma PortChangeRoundTrip(opcode: byte, world: byte, channel: byte, port: int32)
    ensures DecodePortChange(ChannelPortChanged(opcode, world, channel, port))
         == Some(PortChange(opcode, world, channel, port))
  {
  }

  /** Every 7-byte message is the port report of what it decodes to. */
  lemma PortChangeDecodeInverse(m: seq<byte>)
    requires DecodePortChange(m).Some?
    ensures var f := DecodePortChange(m).value;
            ChannelPortChanged(f.opcode, f.world, f.channel, f.port) == m
  {
    var f := DecodePortChange(m).value;
    var e := ChannelPortChanged(f.opcode, f.world, f.channel, f.port);
    assert Unsigned(e[3..]) == Unsigned(m[3..]) by {
      assert Unsigned(e[3..]) == f.port % 0x1_0000_0000;
    }
    UnsignedInjective(e[3..], m[3..]);
    assert e == e[..3] + e[3..] && m == m[..3] + m[3..];
  }

  /** The port report that `shutdown` sends carries the unbound port -1,
      i.e. four 0xFF bytes. */
  lemma ShutdownPortBytes(opcode: byte, world: byte, channel: byte)
    ensures ChannelPortChanged(opcode, world, channel, -1)
         == [opcode, world, channel, 0xFF, 0xFF, 0xFF, 0xFF]
  {
    var m := ChannelPortChanged(opcode, world, channel, -1);
    UnsignedInjective(m[3..], [0xFF, 0xFF, 0xFF, 0xFF]);
    assert m == m[..3] + m[3..];
  }

  /** Redirect to a new game host: the 16-bit opcode, a true flag, the host
      address bytes, and the port cast to a Java short. With a 4-byte IPv4
      address this is the 9 bytes the writer is created with. */
  function NewGameHost(opcode: int16, host: seq<byte>, port: int32): (m: seq<byte>)
    ensures |m| == |host| + 5
    ensures Signed(m[..2]) == opcode && m[2] == 1
    ensures m[3..|m| - 2] == host
    ensures Unsigned(m[|m| - 2..]) == port % 0x1_0000
  {
    SignedField(opcode, 2);
    var m := Short(opcode) + Bool(true) + host + Short(port);
    assert m[..2] == Short(opcode) && m[|m| - 2..] == Short(port);
    m
  }

  datatype Redirect = Redirect(opcode: int, host: seq<byte>, port: int)

  function DecodeNewGameHost(m: seq<byte>): (r: Option<Redirect>)
    ensures r.Some? <==> |m| >= 5 && m[2] == 1
    ensures r.Some? ==> |r.value.host| == |m| - 5 && 0 <= r.value.port < 0x1_0000
  {
    if |m| >= 5 && m[2] == 1
    then Some(Redirect(Signed(m[..2]), m[3..|m| - 2], Unsigned(m[|m| - 2..])))
    else None
  }

  /** The client reads back the opcode, the whole host address and the port
      modulo 2^16: a port outside 0..65535 reaches the client truncated. */
  lemma NewGameHostRoundTrip(opcode: int16, host: seq<byte>, port: int32)
    ensures DecodeNewGameHost(NewGameHost(opcode, host, port))
         == Some(Redirect(opcode, host, port % 0x1_0000))
  {
  }

  /** Every message with the true flag is the redirect of what it decodes to. */
  lemma NewGameHostDecodeInverse(m: seq<byte>)
    requires DecodeNewGameHost(m).Some?
    ensures var f := DecodeNewGameHost(m).value;
            -0x8000 <= f.opcode < 0x8000 &&
            NewGameHost(f.opcode, f.host, f.port) == m
  {
    var f := DecodeNewGameHost(m).value;
    var e := NewGameHost(f.opcode, f.host, f.port);
    assert Unsigned(e[..2]) == Unsigned(m[..2]) by {
      assert Unsigned(e[..2]) == f.opcode % 0x1_0000;
    }
    UnsignedInjective(e[..2], m[..2]);
    UnsignedInjective(e[|e| - 2..], m[|m| - 2..]);
    assert e == e[..2] + [e[2]] + e[3..|e| - 2] + e[|e| - 2..];
    assert m == m[..2] + [m[2]] + m[3..|m| - 2] + m[|m| - 2..];
  }
}

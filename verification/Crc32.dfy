/** The 32-bit checksum: the table-driven form computes the bit-serial one, and single changed bytes
    and bursts of up to 32 bits are found. */
module Crc32 {
  import opened BitStreams

  const INIT: bv32 := 0xFFFFFFFF
  const XOR: bv32 := 0xFFFFFFFF
  const POLY: bv32 := 0xEDB88320

  // Bit by bit

  /** One bit: the lowest bit decides whether the polynomial is added to the rest. */
  function Bit(c: bv32): bv32 { (c >> 1) ^ (if c & 1 == 1 then POLY else 0) }

  function Eight(c: bv32): bv32 { Bit(Bit(Bit(Bit(Bit(Bit(Bit(Bit(c)))))))) }

  /** A byte, as in section 8 of RFC 1952 without the table. */
  function Serial(hash: bv32, b: bv8): bv32 { Eight(Add(hash, b as bv32)) }

  function SerialAll(hash: bv32, data: seq<bv8>): bv32 {
    if data == [] then hash else Serial(SerialAll(hash, data[..|data| - 1]), data[|data| - 1])
  }

  /** The checksum of a message. */
  function Checksum(data: seq<bv8>): bv32 { SerialAll(INIT, data) ^ XOR }

  // The table

  function Row0(i: bv8): bv32 {
    if i == 0 then 0x00000000
    else if i == 1 then 0x77073096
    else if i == 2 then 0xEE0E612C
    else if i == 3 then 0x990951BA
    else if i == 4 then 0x076DC419
    else if i == 5 then 0x706AF48F
    else if i == 6 then 0xE963A535
    else if i == 7 then 0x9E6495A3
    else if i == 8 then 0x0EDB8832
    else if i == 9 then 0x79DCB8A4
    else if i == 10 then 0xE0D5E91E
    else if i == 11 then 0x97D2D988
    else if i == 12 then 0x09B64C2B
    else if i == 13 then 0x7EB17CBD
    else if i == 14 then 0xE7B82D07
    else 0x90BF1D91
  }

  function Row1(i: bv8): bv32 {
    if i == 16 then 0x1DB71064
    else if i == 17 then 0x6AB020F2
    else if i == 18 then 0xF3B97148
    else if i == 19 then 0x84BE41DE
    else if i == 20 then 0x1ADAD47D
    else if i == 21 then 0x6DDDE4EB
    else if i == 22 then 0xF4D4B551
    else if i == 23 then 0x83D385C7
    else if i == 24 then 0x136C9856
    else if i == 25 then 0x646BA8C0
    else if i == 26 then 0xFD62F97A
    else if i == 27 then 0x8A65C9EC
    else if i == 28 then 0x14015C4F
    else if i == 29 then 0x63066CD9
    else if i == 30 then 0xFA0F3D63
    else 0x8D080DF5
  }

  function Row2(i: bv8): bv32 {
    if i == 32 then 0x3B6E20C8
    else if i == 33 then 0x4C69105E
    else if i == 34 then 0xD56041E4
    else if i == 35 then 0xA2677172
    else if i == 36 then 0x3C03E4D1
    else if i == 37 then 0x4B04D447
    else if i == 38 then 0xD20D85FD
    else if i == 39 then 0xA50AB56B
    else if i == 40 then 0x35B5A8FA
    else if i == 41 then 0x42B2986C
    else if i == 42 then 0xDBBBC9D6
    else if i == 43 then 0xACBCF940
    else if i == 44 then 0x32D86CE3
    else if i == 45 then 0x45DF5C75
    else if i == 46 then 0xDCD60DCF
    else 0xABD13D59
  }

  function Row3(i: bv8): bv32 {
    if i == 48 then 0x26D930AC
    else if i == 49 then 0x51DE003A
    else if i == 50 then 0xC8D75180
    else if i == 51 then 0xBFD06116
    else if i == 52 then 0x21B4F4B5
    else if i == 53 then 0x56B3C423
    else if i == 54 then 0xCFBA9599
    else if i == 55 then 0xB8BDA50F
    else if i == 56 then 0x2802B89E
    else if i == 57 then 0x5F058808
    else if i == 58 then 0xC60CD9B2
    else if i == 59 then 0xB10BE924
    else if i == 60 then 0x2F6F7C87
    else if i == 61 then 0x58684C11
    else if i == 62 then 0xC1611DAB
    else 0xB6662D3D
  }

  function Row4(i: bv8): bv32 {
    if i == 64 then 0x76DC4190
    else if i == 65 then 0x01DB7106
    else if i == 66 then 0x98D220BC
    else if i == 67 then 0xEFD5102A
    else if i == 68 then 0x71B18589
    else if i == 69 then 0x06B6B51F
    else if i == 70 then 0x9FBFE4A5
    else if i == 71 then 0xE8B8D433
    else if i == 72 then 0x7807C9A2
    else if i == 73 then 0x0F00F934
    else if i == 74 then 0x9609A88E
    else if i == 75 then 0xE10E9818
    else if i == 76 then 0x7F6A0DBB
    else if i == 77 then 0x086D3D2D
    else if i == 78 then 0x91646C97
    else 0xE6635C01
  }

  function Row5(i: bv8): bv32 {
    if i == 80 then 0x6B6B51F4
    else if i == 81 then 0x1C6C6162
    else if i == 82 then 0x856530D8
    else if i == 83 then 0xF262004E
    else if i == 84 then 0x6C0695ED
    else if i == 85 then 0x1B01A57B
    else if i == 86 then 0x8208F4C1
    else if i == 87 then 0xF50FC457
    else if i == 88 then 0x65B0D9C6
    else if i == 89 then 0x12B7E950
    else if i == 90 then 0x8BBEB8EA
    else if i == 91 then 0xFCB9887C
    else if i == 92 then 0x62DD1DDF
    else if i == 93 then 0x15DA2D49
    else if i == 94 then 0x8CD37CF3
    else 0xFBD44C65
  }

  function Row6(i: bv8): bv32 {
    if i == 96 then 0x4DB26158
    else if i == 97 then 0x3AB551CE
    else if i == 98 then 0xA3BC0074
    else if i == 99 then 0xD4BB30E2
    else if i == 100 then 0x4ADFA541
    else if i == 101 then 0x3DD895D7
    else if i == 102 then 0xA4D1C46D
    else if i == 103 then 0xD3D6F4FB
    else if i == 104 then 0x4369E96A
    else if i == 105 then 0x346ED9FC
    else if i == 106 then 0xAD678846
    else if i == 107 then 0xDA60B8D0
    else if i == 108 then 0x44042D73
    else if i == 109 then 0x33031DE5
    else if i == 110 then 0xAA0A4C5F
    else 0xDD0D7CC9
  }

  function Row7(i: bv8): bv32 {
    if i == 112 then 0x5005713C
    else if i == 113 then 0x270241AA
    else if i == 114 then 0xBE0B1010
    else if i == 115 then 0xC90C2086
    else if i == 116 then 0x5768B525
    else if i == 117 then 0x206F85B3
    else if i == 118 then 0xB966D409
    else if i == 119 then 0xCE61E49F
    else if i == 120 then 0x5EDEF90E
    else if i == 121 then 0x29D9C998
    else if i == 122 then 0xB0D09822
    else if i == 123 then 0xC7D7A8B4
    else if i == 124 then 0x59B33D17
    else if i == 125 then 0x2EB40D81
    else if i == 126 then 0xB7BD5C3B
    else 0xC0BA6CAD
  }

  function Row8(i: bv8): bv32 {
    if i == 128 then 0xEDB88320
    else if i == 129 then 0x9ABFB3B6
    else if i == 130 then 0x03B6E20C
    else if i == 131 then 0x74B1D29A
    else if i == 132 then 0xEAD54739
    else if i == 133 then 0x9DD277AF
    else if i == 134 then 0x04DB2615
    else if i == 135 then 0x73DC1683
    else if i == 136 then 0xE3630B12
    else if i == 137 then 0x94643B84
    else if i == 138 then 0x0D6D6A3E
    else if i == 139 then 0x7A6A5AA8
    else if i == 140 then 0xE40ECF0B
    else if i == 141 then 0x9309FF9D
    else if i == 142 then 0x0A00AE27
    else 0x7D079EB1
  }

  function Row9(i: bv8): bv32 {
    if i == 144 then 0xF00F9344
    else if i == 145 then 0x8708A3D2
    else if i == 146 then 0x1E01F268
    else if i == 147 then 0x6906C2FE
    else if i == 148 then 0xF762575D
    else if i == 149 then 0x806567CB
    else if i == 150 then 0x196C3671
    else if i == 151 then 0x6E6B06E7
    else if i == 152 then 0xFED41B76
    else if i == 153 then 0x89D32BE0
    else if i == 154 then 0x10DA7A5A
    else if i == 155 then 0x67DD4ACC
    else if i == 156 then 0xF9B9DF6F
    else if i == 157 then 0x8EBEEFF9
    else if i == 158 then 0x17B7BE43
    else 0x60B08ED5
  }

  function Row10(i: bv8): bv32 {
    if i == 160 then 0xD6D6A3E8
    else if i == 161 then 0xA1D1937E
    else if i == 162 then 0x38D8C2C4
    else if i == 163 then 0x4FDFF252
    else if i == 164 then 0xD1BB67F1
    else if i == 165 then 0xA6BC5767
    else if i == 166 then 0x3FB506DD
    else if i == 167 then 0x48B2364B
    else if i == 168 then 0xD80D2BDA
    else if i == 169 then 0xAF0A1B4C
    else if i == 170 then 0x36034AF6
    else if i == 171 then 0x41047A60
    else if i == 172 then 0xDF60EFC3
    else if i == 173 then 0xA867DF55
    else if i == 174 then 0x316E8EEF
    else 0x4669BE79
  }

  function Row11(i: bv8): bv32 {
    if i == 176 then 0xCB61B38C
    else if i == 177 then 0xBC66831A
    else if i == 178 then 0x256FD2A0
    else if i == 179 then 0x5268E236
    else if i == 180 then 0xCC0C7795
    else if i == 181 then 0xBB0B4703
    else if i == 182 then 0x220216B9
    else if i == 183 then 0x5505262F
    else if i == 184 then 0xC5BA3BBE
    else if i == 185 then 0xB2BD0B28
    else if i == 186 then 0x2BB45A92
    else if i == 187 then 0x5CB36A04
    else if i == 188 then 0xC2D7FFA7
    else if i == 189 then 0xB5D0CF31
    else if i == 190 then 0x2CD99E8B
    else 0x5BDEAE1D
  }

  function Row12(i: bv8): bv32 {
    if i == 192 then 0x9B64C2B0
    else if i == 193 then 0xEC63F226
    else if i == 194 then 0x756AA39C
    else if i == 195 then 0x026D930A
    else if i == 196 then 0x9C0906A9
    else if i == 197 then 0xEB0E363F
    else if i == 198 then 0x72076785
    else if i == 199 then 0x05005713
    else if i == 200 then 0x95BF4A82
    else if i == 201 then 0xE2B87A14
    else if i == 202 then 0x7BB12BAE
    else if i == 203 then 0x0CB61B38
    else if i == 204 then 0x92D28E9B
    else if i == 205 then 0xE5D5BE0D
    else if i == 206 then 0x7CDCEFB7
    else 0x0BDBDF21
  }

  function Row13(i: bv8): bv32 {
    if i == 208 then 0x86D3D2D4
    else if i == 209 then 0xF1D4E242
    else if i == 210 then 0x68DDB3F8
    else if i == 211 then 0x1FDA836E
    else if i == 212 then 0x81BE16CD
    else if i == 213 then 0xF6B9265B
    else if i == 214 then 0x6FB077E1
    else if i == 215 then 0x18B74777
    else if i == 216 then 0x88085AE6
    else if i == 217 then 0xFF0F6A70
    else if i == 218 then 0x66063BCA
    else if i == 219 then 0x11010B5C
    else if i == 220 then 0x8F659EFF
    else if i == 221 then 0xF862AE69
    else if i == 222 then 0x616BFFD3
    else 0x166CCF45
  }

  function Row14(i: bv8): bv32 {
    if i == 224 then 0xA00AE278
    else if i == 225 then 0xD70DD2EE
    else if i == 226 then 0x4E048354
    else if i == 227 then 0x3903B3C2
    else if i == 228 then 0xA7672661
    else if i == 229 then 0xD06016F7
    else if i == 230 then 0x4969474D
    else if i == 231 then 0x3E6E77DB
    else if i == 232 then 0xAED16A4A
    else if i == 233 then 0xD9D65ADC
    else if i == 234 then 0x40DF0B66
    else if i == 235 then 0x37D83BF0
    else if i == 236 then 0xA9BCAE53
    else if i == 237 then 0xDEBB9EC5
    else if i == 238 then 0x47B2CF7F
    else 0x30B5FFE9
  }

  function Row15(i: bv8): bv32 {
    if i == 240 then 0xBDBDF21C
    else if i == 241 then 0xCABAC28A
    else if i == 242 then 0x53B39330
    else if i == 243 then 0x24B4A3A6
    else if i == 244 then 0xBAD03605
    else if i == 245 then 0xCDD70693
    else if i == 246 then 0x54DE5729
    else if i == 247 then 0x23D967BF
    else if i == 248 then 0xB3667A2E
    else if i == 249 then 0xC4614AB8
    else if i == 250 then 0x5D681B02
    else if i == 251 then 0x2A6F2B94
    else if i == 252 then 0xB40BBE37
    else if i == 253 then 0xC30C8EA1
    else if i == 254 then 0x5A05DF1B
    else 0x2D02EF8D
  }

  function Entry(i: bv8): bv32 {
    if i < 16 then Row0(i)
    else if i < 32 then Row1(i)
    else if i < 48 then Row2(i)
    else if i < 64 then Row3(i)
    else if i < 80 then Row4(i)
    else if i < 96 then Row5(i)
    else if i < 112 then Row6(i)
    else if i < 128 then Row7(i)
    else if i < 144 then Row8(i)
    else if i < 160 then Row9(i)
    else if i < 176 then Row10(i)
    else if i < 192 then Row11(i)
    else if i < 208 then Row12(i)
    else if i < 224 then Row13(i)
    else if i < 240 then Row14(i)
    else Row15(i)
  }

  /** A byte with the table. */
  function Fast(hash: bv32, b: bv8): bv32 {
    Add(Entry(Index(hash, b)), DownByte(hash))
  }

  function Index(hash: bv32, b: bv8): bv8 { ((hash ^ (b as bv32)) & 0xFF) as bv8 }

  lemma Row0Serial(i: bv8)
    requires i < 16
    ensures Row0(i) == Eight(i as bv32)
  {}

  lemma Row1Serial(i: bv8)
    requires 16 <= i < 32
    ensures Row1(i) == Eight(i as bv32)
  {}

  lemma Row2Serial(i: bv8)
    requires 32 <= i < 48
    ensures Row2(i) == Eight(i as bv32)
  {}

  lemma Row3Serial(i: bv8)
    requires 48 <= i < 64
    ensures Row3(i) == Eight(i as bv32)
  {}

  lemma Row4Serial(i: bv8)
    requires 64 <= i < 80
    ensures Row4(i) == Eight(i as bv32)
  {}

  lemma Row5Serial(i: bv8)
    requires 80 <= i < 96
    ensures Row5(i) == Eight(i as bv32)
  {}

  lemma Row6Serial(i: bv8)
    requires 96 <= i < 112
    ensures Row6(i) == Eight(i as bv32)
  {}

  lemma Row7Serial(i: bv8)
    requires 112 <= i < 128
    ensures Row7(i) == Eight(i as bv32)
  {}

  lemma Row8Serial(i: bv8)
    requires 128 <= i < 144
    ensures Row8(i) == Eight(i as bv32)
  {}

  lemma Row9Serial(i: bv8)
    requires 144 <= i < 160
    ensures Row9(i) == Eight(i as bv32)
  {}

  lemma Row10Serial(i: bv8)
    requires 160 <= i < 176
    ensures Row10(i) == Eight(i as bv32)
  {}

  lemma Row11Serial(i: bv8)
    requires 176 <= i < 192
    ensures Row11(i) == Eight(i as bv32)
  {}

  lemma Row12Serial(i: bv8)
    requires 192 <= i < 208
    ensures Row12(i) == Eight(i as bv32)
  {}

  lemma Row13Serial(i: bv8)
    requires 208 <= i < 224
    ensures Row13(i) == Eight(i as bv32)
  {}

  lemma Row14Serial(i: bv8)
    requires 224 <= i < 240
    ensures Row14(i) == Eight(i as bv32)
  {}

  lemma Row15Serial(i: bv8)
    requires 240 <= i
    ensures Row15(i) == Eight(i as bv32)
  {}

  /** Each entry of the table is what eight bits make of its index. */
  lemma EntrySerial(i: bv8)
    ensures Entry(i) == Eight(i as bv32)
  {
    if i < 16 { Row0Serial(i); }
    else if i < 32 { Row1Serial(i); }
    else if i < 48 { Row2Serial(i); }
    else if i < 64 { Row3Serial(i); }
    else if i < 80 { Row4Serial(i); }
    else if i < 96 { Row5Serial(i); }
    else if i < 112 { Row6Serial(i); }
    else if i < 128 { Row7Serial(i); }
    else if i < 144 { Row8Serial(i); }
    else if i < 160 { Row9Serial(i); }
    else if i < 176 { Row10Serial(i); }
    else if i < 192 { Row11Serial(i); }
    else if i < 208 { Row12Serial(i); }
    else if i < 224 { Row13Serial(i); }
    else if i < 240 { Row14Serial(i); }
    else { Row15Serial(i); }
  }

  // Bit-vector operations by name, so that proofs can leave them alone.

  function Add(a: bv32, b: bv32): bv32 { a ^ b }

  function Down(a: bv32): bv32 { a >> 1 }

  function DownByte(a: bv32): bv32 { a >> 8 }

  function Low(a: bv32): bv32 { a & 0xFF }

  function High(a: bv32): bv32 { a & 0xFFFFFF00 }

  predicate Even(a: bv32) { a & 1 == 0 }

  lemma ShiftAdds(a: bv32, b: bv32)
    ensures (a ^ b) >> 1 == (a >> 1) ^ (b >> 1)
  {}

  lemma LowBit(a: bv32, b: bv32)
    requires b & 1 == 0
    ensures (a ^ b) & 1 == a & 1
  {}

  lemma Rearranged(a: bv32, b: bv32, c: bv32)
    ensures (a ^ b) ^ c == (a ^ c) ^ b
  {}

  /** Bits above the lowest one only move. */
  lemma BitAdds(a: bv32, b: bv32)
    requires Even(b)
    ensures Bit(Add(a, b)) == Add(Bit(a), Down(b))
  {
    BitXor(a, b);
    hide Bit;
  }

  lemma BitXor(a: bv32, b: bv32)
    requires b & 1 == 0
    ensures Bit(a ^ b) == Bit(a) ^ (b >> 1)
  {
    ShiftAdds(a, b);
    LowBit(a, b);
    Rearranged(a >> 1, b >> 1, if a & 1 == 1 then POLY else 0);
  }

  lemma MovesOut(x: bv32)
    ensures Down(Down(Down(Down(Down(Down(Down(Down(High(x))))))))) == DownByte(x)
  {}

  lemma HighAndLow(x: bv32)
    ensures Add(Low(x), High(x)) == x
  {}

  lemma StaysEven(x: bv32)
    ensures Even(High(x))
    ensures Even(Down(High(x)))
    ensures Even(Down(Down(High(x))))
    ensures Even(Down(Down(Down(High(x)))))
    ensures Even(Down(Down(Down(Down(High(x))))))
    ensures Even(Down(Down(Down(Down(Down(High(x)))))))
    ensures Even(Down(Down(Down(Down(Down(Down(High(x))))))))
    ensures Even(Down(Down(Down(Down(Down(Down(Down(High(x)))))))))
  {}

  /** Eight bits act on the lowest byte; the others move down. */
  lemma EightSplits(x: bv32)
    ensures Eight(x) == Add(Eight(Low(x)), DownByte(x))
  {
    hide Bit, Add, Down, DownByte, Low, High, Even;
    MovesOut(x);
    HighAndLow(x);
    StaysEven(x);
    var a, b := Low(x), High(x);
    var b1 := Down(b); var b2 := Down(b1); var b3 := Down(b2);
    var b4 := Down(b3); var b5 := Down(b4); var b6 := Down(b5); var b7 := Down(b6);
    BitAdds(a, b);
    BitAdds(Bit(a), b1);
    BitAdds(Bit(Bit(a)), b2);
    BitAdds(Bit(Bit(Bit(a))), b3);
    BitAdds(Bit(Bit(Bit(Bit(a)))), b4);
    BitAdds(Bit(Bit(Bit(Bit(Bit(a))))), b5);
    BitAdds(Bit(Bit(Bit(Bit(Bit(Bit(a)))))), b6);
    BitAdds(Bit(Bit(Bit(Bit(Bit(Bit(Bit(a))))))), b7);
  }

  /** The table-driven step is the bit-serial one. */
  lemma FastIsSerial(hash: bv32, b: bv8)
    ensures Fast(hash, b) == Serial(hash, b)
  {
    hide Entry, Eight, Add, Low, DownByte, Index;
    var i := Index(hash, b);
    EntrySerial(i);
    EightSplits(Add(hash, b as bv32));
    Parts(hash, b);
  }

  lemma Parts(hash: bv32, b: bv8)
    ensures var x := Add(hash, b as bv32); DownByte(x) == DownByte(hash) && Index(hash, b) as bv32 == Low(x)
  {}

  // The code

  method Init() returns (hash: bv32)
    ensures hash == INIT
  {
    hash := INIT;
  }

  method Update(start: bv32, data: seq<bv8>) returns (hash: bv32)
    ensures hash == SerialAll(start, data)
  {
    hash := start;
    var i := 0;
    while i < |data|
      invariant 0 <= i <= |data| && hash == SerialAll(start, data[..i])
    {
      FastIsSerial(hash, data[i]);
      assert data[..i + 1][..i] == data[..i];
      hash := Fast(hash, data[i]);
      i := i + 1;
    }
    assert data[..i] == data;
  }

  method Finish(hash: bv32) returns (sum: bv32)
    ensures sum == hash ^ XOR
  {
    sum := hash ^ XOR;
  }

  method Total(data: seq<bv8>) returns (sum: bv32)
    ensures sum == Checksum(data)
  {
    var hash := Init();
    hash := Update(hash, data);
    sum := Finish(hash);
  }

  /** However the data is split into updates, the checksum is that of the whole. */
  method TotalOfPieces(pieces: seq<seq<bv8>>) returns (sum: bv32)
    ensures sum == Checksum(Flat(pieces))
  {
    hide Serial, Checksum;
    var hash := Init();
    var i := 0;
    while i < |pieces|
      invariant 0 <= i <= |pieces| && hash == SerialAll(INIT, Flat(pieces[..i]))
    {
      SerialSplit(INIT, Flat(pieces[..i]), pieces[i]);
      assert pieces[..i + 1][..i] == pieces[..i];
      hash := Update(hash, pieces[i]);
      i := i + 1;
    }
    assert pieces[..i] == pieces;
    sum := Finish(hash);
    ChecksumOf(Flat(pieces));
  }

  lemma ChecksumOf(data: seq<bv8>)
    ensures Checksum(data) == SerialAll(INIT, data) ^ XOR
  {}

  function Flat(pieces: seq<seq<bv8>>): seq<bv8> {
    if pieces == [] then [] else Flat(pieces[..|pieces| - 1]) + pieces[|pieces| - 1]
  }

  lemma {:induction false} SerialSplit(hash: bv32, a: seq<bv8>, b: seq<bv8>)
    ensures SerialAll(hash, a + b) == SerialAll(SerialAll(hash, a), b)
  {
    hide Serial;
    if b == [] {
      assert a + b == a;
    } else {
      assert (a + b)[..|a + b| - 1] == a + b[..|b| - 1];
      SerialSplit(hash, a, b[..|b| - 1]);
    }
  }

  // Changed bytes

  lemma BitInjective(c: bv32, d: bv32)
    requires Bit(c) == Bit(d)
    ensures c == d
  {}

  lemma EightInjective(c: bv32, d: bv32)
    requires Eight(c) == Eight(d)
    ensures c == d
  {
    var c1, d1 := Bit(c), Bit(d);
    var c2, d2 := Bit(c1), Bit(d1);
    var c3, d3 := Bit(c2), Bit(d2);
    var c4, d4 := Bit(c3), Bit(d3);
    var c5, d5 := Bit(c4), Bit(d4);
    var c6, d6 := Bit(c5), Bit(d5);
    var c7, d7 := Bit(c6), Bit(d6);
    hide Bit;
    BitInjective(c7, d7); BitInjective(c6, d6); BitInjective(c5, d5); BitInjective(c4, d4);
    BitInjective(c3, d3); BitInjective(c2, d2); BitInjective(c1, d1); BitInjective(c, d);
  }

  lemma XorInjective(c: bv32, d: bv32, a: bv8, b: bv8)
    ensures c ^ (b as bv32) == d ^ (b as bv32) ==> c == d
    ensures c ^ (a as bv32) == c ^ (b as bv32) ==> a == b
  {}

  lemma SerialInjective(c: bv32, d: bv32, b: bv8)
    requires Serial(c, b) == Serial(d, b)
    ensures c == d
  {
    hide Eight;
    EightInjective(Add(c, b as bv32), Add(d, b as bv32));
    XorInjective(c, d, b, b);
  }

  lemma SerialDiffers(c: bv32, a: bv8, b: bv8)
    requires Serial(c, a) == Serial(c, b)
    ensures a == b
  {
    hide Eight;
    EightInjective(Add(c, a as bv32), Add(c, b as bv32));
    XorInjective(c, c, a, b);
  }

  lemma {:induction false} SerialAllInjective(c: bv32, d: bv32, data: seq<bv8>)
    requires SerialAll(c, data) == SerialAll(d, data)
    ensures c == d
  {
    hide Serial;
    if data != [] {
      var n := |data| - 1;
      SerialInjective(SerialAll(c, data[..n]), SerialAll(d, data[..n]), data[n]);
      SerialAllInjective(c, d, data[..n]);
    }
  }

  lemma SerialAllDiffers(hash: bv32, before: seq<bv8>, a: bv8, b: bv8, after: seq<bv8>)
    requires SerialAll(hash, before + [a] + after) == SerialAll(hash, before + [b] + after)
    ensures a == b
  {
    hide Serial, SerialAll;
    var h := SerialAll(hash, before);
    SerialSplit(hash, before + [a], after);
    SerialSplit(hash, before, [a]);
    SerialSplit(hash, before + [b], after);
    SerialSplit(hash, before, [b]);
    OneByte(h, a);
    OneByte(h, b);
    SerialAllInjective(Serial(h, a), Serial(h, b), after);
    SerialDiffers(h, a, b);
  }

  /** Messages that differ in exactly one byte never have the same checksum. */
  lemma ChangedByteFound(before: seq<bv8>, a: bv8, b: bv8, after: seq<bv8>)
    requires a != b
    ensures Checksum(before + [a] + after) != Checksum(before + [b] + after)
  {
    hide Checksum, SerialAll;
    if Checksum(before + [a] + after) == Checksum(before + [b] + after) {
      SameState(before + [a] + after, before + [b] + after);
      SerialAllDiffers(INIT, before, a, b, after);
    }
  }

  /** Equal checksums come from equal states. */
  lemma SameState(m: seq<bv8>, m': seq<bv8>)
    requires Checksum(m) == Checksum(m')
    ensures SerialAll(INIT, m) == SerialAll(INIT, m')
  {
    hide SerialAll;
    XorSame(SerialAll(INIT, m), SerialAll(INIT, m'));
  }

  lemma XorSame(c: bv32, d: bv32)
    requires c ^ XOR == d ^ XOR
    ensures c == d
  {}

  lemma OneByte(h: bv32, b: bv8)
    ensures SerialAll(h, [b]) == Serial(h, b)
  {
    assert [b][..0] == [];
    assert SerialAll(h, []) == h;
  }

  // Bursts

  /** One bit of the message. */
  function FeedBit(c: bv32, b: bool): bv32 { Bit(WithBit(c, b)) }

  function WithBit(c: bv32, b: bool): bv32 { if b then c ^ 1 else c }

  function Feed(c: bv32, bits: seq<bool>): bv32
    decreases bits
  {
    if bits == [] then c else Feed(FeedBit(c, bits[0]), bits[1..])
  }

  lemma {:induction false} FeedSplit(c: bv32, x: seq<bool>, y: seq<bool>)
    ensures Feed(c, x + y) == Feed(Feed(c, x), y)
    decreases x
  {
    hide FeedBit;
    if x == [] {
      assert x + y == y;
    } else {
      assert (x + y)[1..] == x[1..] + y;
      FeedSplit(FeedBit(c, x[0]), x[1..], y);
    }
  }

  lemma FeedBitInjective(c: bv32, d: bv32, b: bool)
    requires FeedBit(c, b) == FeedBit(d, b)
    ensures c == d
  {}

  lemma {:induction false} FeedInjective(c: bv32, d: bv32, bits: seq<bool>)
    requires Feed(c, bits) == Feed(d, bits)
    ensures c == d
    decreases bits
  {
    hide FeedBit;
    if bits != [] {
      FeedInjective(FeedBit(c, bits[0]), FeedBit(d, bits[0]), bits[1..]);
      FeedBitInjective(c, d, bits[0]);
    }
  }

  function Bits(c: bv32, n: nat): bv32
    decreases n
  {
    if n == 0 then c else Bits(Bit(c), n - 1)
  }

  lemma {:induction false} BitsInjective(c: bv32, d: bv32, n: nat)
    requires Bits(c, n) == Bits(d, n)
    ensures c == d
    decreases n
  {
    hide Bit;
    if n > 0 {
      BitsInjective(Bit(c), Bit(d), n - 1);
      BitInjective(c, d);
    }
  }

  /** A byte that was added at once, as a word. */
  function WithByte(c: bv32, b: bv8): bv32 { Add(c, b as bv32) }

  /** The bits of a byte above the lowest. */
  function Upper(b: bv8): bv32 { (b & 0xFE) as bv32 }

  lemma LowestFirst(c: bv32, b: bv8)
    ensures Add(c, b as bv32) == Add(WithBit(c, Odd(b)), Upper(b))
    ensures Even(Upper(b)) && Down(Upper(b)) == Shift(b) as bv32
  {}

  lemma FeedLowest(c: bv32, b: bv8)
    ensures WithByte(FeedBit(c, Odd(b)), Shift(b)) == Bit(WithByte(c, b))
  {
    hide Add, Bit, WithBit, Upper, Odd, Shift, Even, Down;
    LowestFirst(c, b);
    BitAdds(WithBit(c, Odd(b)), Upper(b));
  }

  lemma WithoutByte(c: bv32)
    ensures WithByte(c, 0) == c
  {}

  lemma {:induction false} LowBitsFeed(c: bv32, b: bv8, n: nat)
    ensures WithByte(Feed(c, LowBits(b, n)), Shifts(b, n)) == Bits(WithByte(c, b), n)
    decreases n
  {
    hide Bit, Shift, Odd, FeedBit, WithByte;
    if n > 0 {
      var bits := LowBits(b, n);
      assert bits[0] == Odd(b) && bits[1..] == LowBits(Shift(b), n - 1);
      FeedLowest(c, b);
      LowBitsFeed(FeedBit(c, Odd(b)), Shift(b), n - 1);
    }
  }

  lemma EightBits(c: bv32)
    ensures Bits(c, 8) == Eight(c)
  {
    hide Bit;
  }

  lemma SerialFeeds(c: bv32, b: bv8)
    ensures Serial(c, b) == Feed(c, LowBits(b, 8))
  {
    hide Bits, Eight, Feed, LowBits, Shifts;
    LowBitsFeed(c, b, 8);
    NothingLeft(b);
    WithoutByte(Feed(c, LowBits(b, 8)));
    EightBits(WithByte(c, b));
  }

  /** The checksum depends on the bits of the message only. */
  lemma {:induction false} SerialAllFeeds(c: bv32, data: seq<bv8>)
    ensures SerialAll(c, data) == Feed(c, Stream(data))
  {
    if data != [] {
      hide Serial, Feed, LowBits;
      var front, last := data[..|data| - 1], data[|data| - 1];
      SerialAllFeeds(c, front);
      FeedSplit(c, Stream(front), LowBits(last, 8));
      SerialFeeds(SerialAll(c, front), last);
    }
  }

  /** Bits as a word, first bit lowest. */
  function Word(bits: seq<bool>): bv32 {
    if bits == [] then 0 else Before(bits[0], Word(bits[1..]))
  }

  function Before(b: bool, x: bv32): bv32 { WithBit(Up(x), b) }

  function Up(x: bv32): bv32 { x << 1 }

  function Mask(n: nat): bv32 { if n == 0 then 0 else (Mask(n - 1) << 1) | 1 }

  predicate Fits(x: bv32, m: bv32) { x & m == x }

  lemma FitsBefore(b: bool, x: bv32, m: bv32)
    requires Fits(x, m)
    ensures Fits(Before(b, x), (m << 1) | 1)
  {
    FitsUp(x, m);
    FitsUpAndOne(x, m);
    hide Fits;
  }

  lemma FitsUp(x: bv32, m: bv32)
    requires x & m == x
    ensures (x << 1) & ((m << 1) | 1) == x << 1
  {}

  lemma FitsUpAndOne(x: bv32, m: bv32)
    requires x & m == x
    ensures ((x << 1) ^ 1) & ((m << 1) | 1) == (x << 1) ^ 1
  {}

  lemma NothingFits(m: bv32)
    ensures Fits(0, m)
  {}

  lemma {:induction false} WordFits(bits: seq<bool>, n: nat)
    requires |bits| <= n
    ensures Fits(Word(bits), Mask(n))
    decreases n
  {
    hide Fits, Before;
    if bits == [] {
      NothingFits(Mask(n));
    } else {
      WordFits(bits[1..], n - 1);
      FitsBefore(bits[0], Word(bits[1..]), Mask(n - 1));
    }
  }

  /** The bits after the first leave the highest one free. */
  lemma RestFits(bits: seq<bool>)
    requires 1 <= |bits| <= 32
    ensures Fits(Word(bits[1..]), 0x7FFFFFFF)
  {
    WordFits(bits[1..], 31);
    hide Fits, Word;
    assert Mask(8) == 0xFF;
    assert Mask(16) == 0xFFFF;
    assert Mask(24) == 0xFFFFFF;
    assert Mask(31) == 0x7FFFFFFF;
  }

  lemma AddNothing(c: bv32)
    ensures Add(c, 0) == c
  {}

  /** Adding a bit and then the bits after it is adding them together, unless one is shifted out. */
  lemma FeedWord(c: bv32, b: bool, x: bv32)
    requires Fits(x, 0x7FFFFFFF)
    ensures Add(FeedBit(c, b), x) == Bit(Add(c, Before(b, x)))
  {
    hide Add, Bit, WithBit, Before, Fits, Even, Down, Up;
    BitFirst(c, b, x);
    UpAndDown(x);
    BitAdds(WithBit(c, b), Up(x));
  }

  lemma BitFirst(c: bv32, b: bool, x: bv32)
    ensures Add(c, Before(b, x)) == Add(WithBit(c, b), Up(x))
  {
    hide Up;
    Moved(c, Up(x), 1);
  }

  lemma Moved(a: bv32, b: bv32, c: bv32)
    ensures a ^ (b ^ c) == (a ^ c) ^ b
  {}

  lemma UpAndDown(x: bv32)
    requires Fits(x, 0x7FFFFFFF)
    ensures Even(Up(x)) && Down(Up(x)) == x
  {}

  lemma {:induction false} FeedIsBits(c: bv32, bits: seq<bool>)
    requires |bits| <= 32
    ensures Feed(c, bits) == Bits(Add(c, Word(bits)), |bits|)
    decreases bits
  {
    hide FeedBit, Bit, Before, Fits, Mask, Add;
    if bits == [] {
      AddNothing(c);
    } else {
      RestFits(bits);
      FeedWord(c, bits[0], Word(bits[1..]));
      FeedIsBits(FeedBit(c, bits[0]), bits[1..]);
    }
  }

  predicate Lowest(c: bv32) { c & 1 == 1 }

  /** The bit and the bits after it can be told from the word. */
  lemma BeforeRead(b: bool, x: bv32)
    requires Fits(x, 0x7FFFFFFF)
    ensures Lowest(Before(b, x)) == b && Down(Before(b, x)) == x
  {
    if b { OddRead(x); } else { EvenRead(x); }
  }

  lemma OddRead(x: bv32)
    requires x & 0x7FFFFFFF == x
    ensures ((x << 1) ^ 1) & 1 == 1 && ((x << 1) ^ 1) >> 1 == x
  {}

  lemma EvenRead(x: bv32)
    requires x & 0x7FFFFFFF == x
    ensures (x << 1) & 1 == 0 && (x << 1) >> 1 == x
  {}

  lemma {:induction false} WordInjective(x: seq<bool>, y: seq<bool>)
    requires |x| == |y| <= 32 && Word(x) == Word(y)
    ensures x == y
  {
    if x != [] {
      RestFits(x);
      RestFits(y);
      hide Before, Fits, Lowest, Down;
      BeforeRead(x[0], Word(x[1..]));
      BeforeRead(y[0], Word(y[1..]));
      WordInjective(x[1..], y[1..]);
      assert x == [x[0]] + x[1..] && y == [y[0]] + y[1..];
    }
  }

  lemma AddInjective(c: bv32, x: bv32, y: bv32)
    requires Add(c, x) == Add(c, y)
    ensures x == y
  {}

  /** From one state, different bits lead to different states, up to 32 of them. */
  lemma FeedDiffers(c: bv32, x: seq<bool>, y: seq<bool>)
    requires |x| == |y| <= 32 && Feed(c, x) == Feed(c, y)
    ensures x == y
  {
    hide Bits, Word, Feed, Add;
    FeedIsBits(c, x);
    FeedIsBits(c, y);
    BitsInjective(Add(c, Word(x)), Add(c, Word(y)), |x|);
    AddInjective(c, Word(x), Word(y));
    WordInjective(x, y);
  }

  /** Different messages of equal length whose differences lie within 32 consecutive bits, wherever
      these start, never have the same checksum. */
  lemma BurstFound(m: seq<bv8>, m': seq<bv8>, k: nat)
    requires m != m' && |m| == |m'| && DifferWithin(Stream(m), Stream(m'), k, 32)
    ensures Checksum(m) != Checksum(m')
  {
    hide Checksum, SerialAll, Feed, Stream, DifferWithin;
    if Checksum(m) == Checksum(m') {
      SameState(m, m');
      SerialAllFeeds(INIT, m);
      SerialAllFeeds(INIT, m');
      var x, y := Stream(m), Stream(m');
      var a, b := Window(x, y, k, 32);
      var c := Feed(INIT, x[..a]);
      FeedSplit(INIT, x[..a] + x[a..b], x[b..]);
      FeedSplit(INIT, x[..a], x[a..b]);
      FeedSplit(INIT, x[..a] + y[a..b], x[b..]);
      FeedSplit(INIT, x[..a], y[a..b]);
      FeedInjective(Feed(c, x[a..b]), Feed(c, y[a..b]), x[b..]);
      FeedDiffers(c, x[a..b], y[a..b]);
      StreamInjective(m, m');
    }
  }

  // The checksum is a remainder

  /** With x^32, the polynomial of CRC-32: x^26 + x^23 + x^22 + x^32 + x^12 + x^11 + x^10 + x^8 + x^7 + x^5 +
      x^4 + x^2 + x + 1. */
  const POLYNOMIAL: seq<bool> :=
    Zeros(5) + [true, false, false, true, true] + Zeros(5) + [true, false, false, false, true, true, true, false] +
    [true, true, false, true, true, false, true, true, true]

  /** The bits of a state, lowest first. */
  function RegisterBit(c: bv32, i: nat): bool
    decreases i
  {
    if i == 0 then Lowest(c) else RegisterBit(Down(c), i - 1)
  }

  function Register(c: bv32): seq<bool> { seq(32, i requires 0 <= i => RegisterBit(c, i)) }

  lemma LowestAdds(c: bv32, d: bv32)
    ensures Lowest(Add(c, d)) == (Lowest(c) != Lowest(d)) && Down(Add(c, d)) == Add(Down(c), Down(d))
  {
    ShiftAdds(c, d);
    if Lowest(d) { OddAdded(c, d); } else { EvenAdded(c, d); }
  }

  lemma OddAdded(c: bv32, d: bv32)
    requires d & 1 == 1
    ensures ((c ^ d) & 1 == 1) == (c & 1 != 1)
  {}

  lemma EvenAdded(c: bv32, d: bv32)
    requires d & 1 != 1
    ensures ((c ^ d) & 1 == 1) == (c & 1 == 1)
  {}

  lemma {:induction false} RegisterAdds(c: bv32, d: bv32, i: nat)
    ensures RegisterBit(Add(c, d), i) == (RegisterBit(c, i) != RegisterBit(d, i))
    decreases i
  {
    hide Lowest, Down, Add;
    LowestAdds(c, d);
    if i > 0 { RegisterAdds(Down(c), Down(d), i - 1); }
  }

  function FourDown(c: bv32): bv32 { Down(Down(Down(Down(c)))) }

  /** Four bits at a time. */
  lemma RegisterDown(c: bv32, i: nat)
    ensures RegisterBit(c, i + 4) == RegisterBit(FourDown(c), i)
  {
    hide Down, Lowest;
    assert RegisterBit(c, i + 4) == RegisterBit(Down(c), i + 3);
    assert RegisterBit(Down(c), i + 3) == RegisterBit(Down(Down(c)), i + 2);
    assert RegisterBit(Down(Down(c)), i + 2) == RegisterBit(Down(Down(Down(c))), i + 1);
  }

  lemma FourBits(c: bv32)
    ensures RegisterBit(c, 0) == Lowest(c) && RegisterBit(c, 1) == Lowest(Down(c))
    ensures RegisterBit(c, 2) == Lowest(Down(Down(c))) && RegisterBit(c, 3) == Lowest(Down(Down(Down(c))))
  {
    hide Down, Lowest;
  }

  function EightDown(c: bv32): bv32 { FourDown(FourDown(c)) }

  lemma AllOut(c: bv32)
    ensures EightDown(EightDown(EightDown(EightDown(c)))) == 0 && !Lowest(0)
  {}

  lemma RegisterDownTwice(c: bv32, i: nat)
    ensures RegisterBit(c, i + 8) == RegisterBit(EightDown(c), i)
  {
    hide FourDown, RegisterBit;
    RegisterDown(c, i + 4);
    RegisterDown(FourDown(c), i);
  }

  lemma RegisterEnds(c: bv32)
    ensures !RegisterBit(c, 32)
  {
    var c1 := EightDown(c);
    var c2 := EightDown(c1);
    var c3 := EightDown(c2);
    AllOut(c);
    hide Lowest, EightDown;
    RegisterDownTwice(c, 24);
    RegisterDownTwice(c1, 16);
    RegisterDownTwice(c2, 8);
    RegisterDownTwice(c3, 0);
  }

  /** The bits of a state, byte by byte. */
  lemma ByteByByte(c: bv32, i: nat)
    requires i < 8
    ensures var c1 := EightDown(c); var c2 := EightDown(c1); var c3 := EightDown(c2);
            && RegisterBit(c, i + 8) == RegisterBit(c1, i) && RegisterBit(c, i + 16) == RegisterBit(c2, i)
            && RegisterBit(c, i + 24) == RegisterBit(c3, i)
  {
    hide EightDown, RegisterBit;
    var c1 := EightDown(c);
    var c2 := EightDown(c1);
    RegisterDownTwice(c, i);
    RegisterDownTwice(c, i + 8);
    RegisterDownTwice(c, i + 16);
    RegisterDownTwice(c1, i);
    RegisterDownTwice(c1, i + 8);
    RegisterDownTwice(c2, i);
  }

  lemma RegisterShifts(c: bv32)
    ensures Register(Down(c)) == Register(c)[1..] + [false] && Register(c)[0] == Lowest(c)
  {
    RegisterEnds(c);
    hide Down, Lowest;
    forall i | 0 <= i < 32 ensures Register(Down(c))[i] == (Register(c)[1..] + [false])[i] {
      assert RegisterBit(c, i + 1) == RegisterBit(Down(c), i);
    }
  }

  lemma PolyIsPolynomial()
    ensures Register(POLY) == POLYNOMIAL
  {
    PolyDown();
    var b0 := [false, false, false, false, false, true, false, false];
    var b1 := [true, true, false, false, false, false, false, true];
    var b2 := [false, false, false, true, true, true, false, true];
    var b3 := [true, false, true, true, false, true, true, true];
    assert POLYNOMIAL == b0 + b1 + b2 + b3;
    hide Lowest, Down, FourDown, EightDown, RegisterBit;
    FourBytes(POLY, b0, b1, b2, b3);
  }

  lemma PolyDown()
    ensures EightDown(POLY) == 0xEDB883 && EightDown(0xEDB883) == 0xEDB8 && EightDown(0xEDB8) == 0xED
    ensures LowestByte(POLY, [false, false, false, false, false, true, false, false])
    ensures LowestByte(0xEDB883, [true, true, false, false, false, false, false, true])
    ensures LowestByte(0xEDB8, [false, false, false, true, true, true, false, true])
    ensures LowestByte(0xED, [true, false, true, true, false, true, true, true])
  {}

  /** The lowest byte of a state has the given bits. */
  predicate LowestByte(c: bv32, bits: seq<bool>) {
    var d := FourDown(c);
    && |bits| == 8 && bits[0] == Lowest(c) && bits[1] == Lowest(Down(c))
    && bits[2] == Lowest(Down(Down(c))) && bits[3] == Lowest(Down(Down(Down(c))))
    && bits[4] == Lowest(d) && bits[5] == Lowest(Down(d))
    && bits[6] == Lowest(Down(Down(d))) && bits[7] == Lowest(Down(Down(Down(d))))
  }

  lemma ByteIs(c: bv32, bits: seq<bool>)
    requires LowestByte(c, bits)
    ensures |bits| == 8 && forall i: nat :: i < 8 ==> RegisterBit(c, i) == bits[i]
  {
    hide Lowest, Down, FourDown, RegisterBit;
    FourBits(c);
    FourBits(FourDown(c));
    forall i: nat | i < 8 ensures RegisterBit(c, i) == bits[i] {
      if i >= 4 { RegisterDown(c, i - 4); }
    }
  }

  lemma FourBytes(c: bv32, b0: seq<bool>, b1: seq<bool>, b2: seq<bool>, b3: seq<bool>)
    requires LowestByte(c, b0) && LowestByte(EightDown(c), b1) && LowestByte(EightDown(EightDown(c)), b2)
    requires LowestByte(EightDown(EightDown(EightDown(c))), b3)
    ensures Register(c) == b0 + b1 + b2 + b3
  {
    hide LowestByte, EightDown, RegisterBit;
    ByteIs(c, b0);
    ByteIs(EightDown(c), b1);
    ByteIs(EightDown(EightDown(c)), b2);
    ByteIs(EightDown(EightDown(EightDown(c))), b3);
    var all := b0 + b1 + b2 + b3;
    forall i: nat | i < 32 ensures RegisterBit(c, i) == all[i] {
      if i >= 8 { ByteByByte(c, i % 8); }
    }
  }

  /** Feeding a bit is one step of the division. */
  lemma FeedDivides(c: bv32, b: bool)
    ensures FeedBit(c, b) == if Lowest(c) != b then Add(Down(c), POLY) else Down(c)
  {
    Flipped(c);
    hide Lowest, Down;
    var d := WithBit(c, b);
    assert Down(d) == Down(c) && Lowest(d) == (Lowest(c) != b);
    BitDivides(d);
  }

  lemma Flipped(c: bv32)
    ensures Down(c ^ 1) == Down(c) && Lowest(c ^ 1) == !Lowest(c)
  {}

  lemma BitDivides(d: bv32)
    ensures Bit(d) == if Lowest(d) then Add(Down(d), POLY) else Down(d)
  {
    AddNothing(d >> 1);
  }

  lemma {:induction false} FeedIsRemainder(c: bv32, bits: seq<bool>)
    ensures Remainder(AddFront(bits + Zeros(32), Register(c)), POLYNOMIAL) == Register(Feed(c, bits))
    decreases bits
  {
    hide FeedBit, Down, Lowest, Add, AddFront, Zeros, Register;
    var r, all := Register(c), bits + Zeros(32);
    SizesAre(c);
    if bits == [] {
      assert all == Zeros(32);
      AddToZeros(r);
    } else {
      var rest := bits[1..] + Zeros(32);
      assert all[1..] == rest && all[0] == bits[0];
      RegisterShifts(c);
      AddFrontRest(all, r, Register(Down(c)));
      FeedDivides(c, bits[0]);
      PolyIsPolynomial();
      SumIs(Down(c));
      AddTwice(rest, Register(Down(c)), POLYNOMIAL, Register(Add(Down(c), POLY)));
      FeedIsRemainder(FeedBit(c, bits[0]), bits[1..]);
    }
  }

  lemma SizesAre(c: bv32)
    ensures |Register(c)| == |POLYNOMIAL| == |Zeros(32)| == 32 && |Register(Down(c))| == 32
  {}

  lemma SumIs(c: bv32)
    ensures |Register(Add(c, POLY))| == |Register(c)| == |POLYNOMIAL| == 32
    ensures forall i :: 0 <= i < 32 ==> Register(Add(c, POLY))[i] == (Register(c)[i] != POLYNOMIAL[i])
  {
    hide Add, Down, Lowest;
    PolyIsPolynomial();
    forall i | 0 <= i < 32 ensures Register(Add(c, POLY))[i] == (Register(c)[i] != Register(POLY)[i]) {
      RegisterAdds(c, POLY, i);
    }
  }

  lemma InitIsOnes()
    ensures Register(INIT) == Ones(32)
  {
    InitDown();
    hide LowestByte, EightDown, RegisterBit;
    FourBytes(INIT, Ones(8), Ones(8), Ones(8), Ones(8));
    assert Ones(8) + Ones(8) + Ones(8) + Ones(8) == Ones(32);
  }

  lemma InitDown()
    ensures EightDown(INIT) == 0xFFFFFF && EightDown(0xFFFFFF) == 0xFFFF && EightDown(0xFFFF) == 0xFF
    ensures LowestByte(INIT, Ones(8)) && LowestByte(0xFFFFFF, Ones(8))
    ensures LowestByte(0xFFFF, Ones(8)) && LowestByte(0xFF, Ones(8))
  {}

  /** The checksum is the complement of the remainder of the message, with its first 32 bits inverted and 32
      zeros appended, by the polynomial of CRC-32. */
  lemma ChecksumIsRemainder(data: seq<bv8>)
    ensures Register(Checksum(data)) ==
            Inverted(Remainder(AddFront(Stream(data) + Zeros(32), Ones(32)), POLYNOMIAL))
  {
    hide SerialAll, Feed, Stream, Register, Remainder, AddFront, Inverted;
    SerialAllFeeds(INIT, data);
    FeedIsRemainder(INIT, Stream(data));
    InitIsOnes();
    RegisterInverted(SerialAll(INIT, data));
  }

  function Inverted(bits: seq<bool>): seq<bool> { seq(|bits|, i requires 0 <= i < |bits| => !bits[i]) }

  lemma RegisterInverted(c: bv32)
    ensures Register(c ^ XOR) == Inverted(Register(c))
  {
    InitIsOnes();
    assert XOR == INIT && c ^ XOR == Add(c, INIT);
    hide Add, Down, Lowest;
    forall i | 0 <= i < 32 ensures Register(Add(c, INIT))[i] == !Register(c)[i] {
      RegisterAdds(c, INIT, i);
      assert Register(INIT)[i];
    }
  }
}

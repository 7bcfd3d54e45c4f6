/** For each table, the pair of values whose code word begins a given window of the stream.  The window is
    as long as the table's longest code word. */
module TableLookup {

  /** Table 1: a window of 3 bits. */
  function Lookup1(v: nat): (nat, nat) {
    if v < 2 then (if v < 1 then (1, 1) else (0, 1)) else if v < 4 then (1, 0) else (0, 0)
  }

  /** Table 2: a window of 6 bits. */
  function Lookup2(v: nat): (nat, nat) {
    if v < 6 then (if v < 2 then (if v < 1 then (2, 2) else (0, 2)) else if v < 4 then (1, 2) else (2, 1)) else
    if v < 16 then (if v < 8 then (2, 0) else (1, 1)) else if v < 24 then (0, 1) else if v < 32 then (1, 0) else
    (0, 0)
  }

  /** Table 3: a window of 6 bits. */
  function Lookup3(v: nat): (nat, nat) {
    if v < 6 then (if v < 2 then (if v < 1 then (2, 2) else (0, 2)) else if v < 4 then (1, 2) else (2, 1)) else
    if v < 16 then (if v < 8 then (2, 0) else (1, 0)) else if v < 32 then (1, 1) else if v < 48 then (0, 1) else
    (0, 0)
  }

  /** Table 5: a window of 8 bits. */
  function Lookup5(v: nat): (nat, nat) {
    if v < 16 then (if v < 8 then (if v < 2 then (if v < 1 then (3, 3) else (2, 3)) else if v < 4 then (3, 2)
    else (3, 1)) else if v < 12 then (if v < 10 then (1, 3) else (0, 3)) else if v < 14 then (3, 0) else (2, 2))
    else if v < 32 then (if v < 24 then (if v < 20 then (1, 2) else (2, 1)) else if v < 28 then (0, 2) else
    (2, 0)) else if v < 96 then (if v < 64 then (1, 1) else (0, 1)) else if v < 128 then (1, 0) else (0, 0)
  }

  /** Table 6: a window of 7 bits. */
  function Lookup6(v: nat): (nat, nat) {
    if v < 20 then (if v < 6 then (if v < 2 then (if v < 1 then (3, 3) else (0, 3)) else if v < 4 then (2, 3)
    else (3, 2)) else if v < 12 then (if v < 8 then (3, 0) else (1, 3)) else if v < 16 then (3, 1) else (2, 2))
    else if v < 48 then (if v < 32 then (if v < 24 then (0, 2) else (1, 2)) else if v < 40 then (2, 1) else
    (2, 0)) else if v < 96 then (if v < 64 then (0, 1) else (1, 1)) else if v < 112 then (1, 0) else (0, 0)
  }

  /** Table 7: a window of 10 bits. */
  function Lookup7(v: nat): (nat, nat) {
    if v < 48 then (if v < 16 then (if v < 4 then (if v < 2 then (if v < 1 then (5, 5) else (4, 5)) else if v <
    3 then (5, 4) else (5, 3)) else if v < 8 then (if v < 6 then (3, 5) else (4, 4)) else if v < 10 then (2, 5)
    else if v < 12 then (5, 2) else (1, 5)) else if v < 28 then (if v < 22 then (if v < 20 then (5, 1) else
    (0, 5)) else if v < 24 then (3, 4) else (5, 0)) else if v < 32 then (if v < 30 then (4, 3) else (3, 3)) else
    if v < 36 then (2, 4) else if v < 40 then (4, 2) else (1, 4)) else if v < 104 then (if v < 72 then (if v <
    64 then (if v < 56 then (4, 1) else (4, 0)) else if v < 68 then (0, 4) else (2, 3)) else if v < 80 then (if
    v < 76 then (3, 2) else (0, 3)) else if v < 88 then (1, 3) else if v < 96 then (3, 1) else (3, 0)) else if v
    < 176 then (if v < 128 then (if v < 112 then (2, 2) else (1, 2)) else if v < 160 then (2, 1) else (0, 2))
    else if v < 256 then (if v < 192 then (2, 0) else (1, 1)) else if v < 384 then (0, 1) else if v < 512 then
    (1, 0) else (0, 0)
  }

  /** Table 8: a window of 11 bits. */
  function Lookup8(v: nat): (nat, nat) {
    if v < 80 then (if v < 24 then (if v < 8 then (if v < 2 then (if v < 1 then (5, 5) else (5, 4)) else if v <
    4 then (4, 5) else (5, 3)) else if v < 12 then (if v < 10 then (3, 5) else (4, 4)) else if v < 16 then
    (2, 5) else if v < 20 then (5, 2) else (0, 5)) else if v < 48 then (if v < 40 then (if v < 32 then (1, 5)
    else (5, 1)) else if v < 44 then (3, 4) else (4, 3)) else if v < 56 then (if v < 52 then (5, 0) else (3, 3))
    else if v < 64 then (2, 4) else if v < 72 then (4, 2) else (1, 4)) else if v < 160 then (if v < 120 then (if
    v < 104 then (if v < 96 then (4, 1) else (0, 4)) else if v < 112 then (4, 0) else (2, 3)) else if v < 136
    then (if v < 128 then (3, 2) else (1, 3)) else if v < 144 then (3, 1) else if v < 152 then (0, 3) else
    (3, 0)) else if v < 384 then (if v < 224 then (if v < 192 then (2, 2) else (0, 2)) else if v < 256 then
    (2, 0) else (1, 2)) else if v < 1024 then (if v < 512 then (2, 1) else (1, 1)) else if v < 1280 then (0, 1)
    else if v < 1536 then (1, 0) else (0, 0)
  }

  /** Table 9: a window of 9 bits. */
  function Lookup9(v: nat): (nat, nat) {
    if v < 44 then (if v < 14 then (if v < 6 then (if v < 2 then (if v < 1 then (5, 5) else (4, 5)) else if v <
    4 then (3, 5) else (5, 3)) else if v < 8 then (if v < 7 then (5, 4) else (0, 5)) else if v < 10 then (4, 4)
    else if v < 12 then (2, 5) else (5, 2)) else if v < 28 then (if v < 20 then (if v < 16 then (1, 5) else
    (5, 1)) else if v < 24 then (3, 4) else (4, 3)) else if v < 32 then (if v < 30 then (5, 0) else (0, 4)) else
    if v < 36 then (2, 4) else if v < 40 then (4, 2) else (3, 3)) else if v < 128 then (if v < 72 then (if v <
    56 then (if v < 48 then (4, 0) else (1, 4)) else if v < 64 then (4, 1) else (2, 3)) else if v < 96 then (if
    v < 80 then (3, 2) else (1, 3)) else if v < 112 then (3, 1) else if v < 120 then (0, 3) else (3, 0)) else if
    v < 224 then (if v < 160 then (if v < 144 then (2, 2) else (0, 2)) else if v < 192 then (1, 2) else (2, 1))
    else if v < 320 then (if v < 256 then (2, 0) else (1, 1)) else if v < 384 then (0, 1) else if v < 448 then
    (1, 0) else (0, 0)
  }

  /** Table 10: a window of 11 bits. */
  function Lookup10(v: nat): (nat, nat) {
    if v < 82 then (if v < 24 then (if v < 10 then (if v < 4 then (if v < 2 then (if v < 1 then (7, 7) else
    (6, 7)) else if v < 3 then (7, 6) else (5, 7)) else if v < 6 then (if v < 5 then (7, 5) else (6, 6)) else if
    v < 8 then (4, 7) else (7, 4)) else if v < 18 then (if v < 14 then (if v < 12 then (5, 6) else (6, 5)) else
    if v < 16 then (3, 7) else (7, 3)) else if v < 21 then (if v < 20 then (4, 6) else (5, 5)) else if v < 22
    then (5, 4) else (6, 3)) else if v < 48 then (if v < 36 then (if v < 32 then (if v < 28 then (2, 7) else
    (7, 2)) else if v < 34 then (6, 4) else (0, 7)) else if v < 44 then (if v < 40 then (7, 0) else (6, 2)) else
    if v < 46 then (4, 5) else (3, 5)) else if v < 64 then (if v < 54 then (if v < 52 then (0, 6) else (5, 3))
    else if v < 56 then (4, 4) else (1, 7)) else if v < 76 then (if v < 72 then (7, 1) else (3, 6)) else if v <
    80 then (2, 6) else (2, 5)) else if v < 160 then (if v < 120 then (if v < 94 then (if v < 88 then (if v < 84
    then (5, 2) else (1, 5)) else if v < 92 then (5, 1) else (3, 4)) else if v < 104 then (if v < 96 then (4, 3)
    else (1, 6)) else if v < 112 then (6, 1) else (6, 0)) else if v < 136 then (if v < 128 then (if v < 124 then
    (0, 5) else (5, 0)) else if v < 132 then (2, 4) else (4, 2)) else if v < 144 then (if v < 140 then (3, 3)
    else (0, 4)) else if v < 152 then (1, 4) else (4, 1)) else if v < 256 then (if v < 192 then (if v < 176 then
    (if v < 168 then (4, 0) else (2, 3)) else if v < 184 then (3, 2) else (0, 3)) else if v < 224 then (if v <
    208 then (1, 3) else (3, 1)) else if v < 240 then (3, 0) else (2, 2)) else if v < 384 then (if v < 320 then
    (if v < 288 then (1, 2) else (2, 1)) else if v < 352 then (0, 2) else (2, 0)) else if v < 768 then (if v <
    512 then (1, 1) else (0, 1)) else if v < 1024 then (1, 0) else (0, 0)
  }

  /** Table 11: a window of 11 bits. */
  function Lookup11(v: nat): (nat, nat) {
    if v < 136 then (if v < 36 then (if v < 15 then (if v < 8 then (if v < 4 then (if v < 2 then (7, 7) else
    (6, 7)) else if v < 6 then (7, 6) else (7, 5)) else if v < 12 then (if v < 10 then (6, 6) else (4, 7)) else
    if v < 14 then (7, 4) else (5, 7)) else if v < 24 then (if v < 18 then (if v < 16 then (5, 5) else (5, 6))
    else if v < 20 then (6, 5) else (3, 7)) else if v < 32 then (if v < 28 then (7, 3) else (4, 6)) else if v <
    34 then (4, 5) else (5, 4)) else if v < 88 then (if v < 56 then (if v < 40 then (if v < 38 then (3, 5) else
    (5, 3)) else if v < 48 then (2, 7) else (7, 2)) else if v < 64 then (if v < 60 then (6, 4) else (0, 7)) else
    if v < 80 then (7, 1) else (1, 7)) else if v < 120 then (if v < 104 then (if v < 96 then (7, 0) else (3, 6))
    else if v < 112 then (6, 3) else (6, 0)) else if v < 128 then (if v < 124 then (4, 4) else (2, 5)) else if v
    < 132 then (5, 2) else (0, 5)) else if v < 280 then (if v < 224 then (if v < 176 then (if v < 160 then (if v
    < 144 then (1, 5) else (6, 2)) else if v < 168 then (2, 6) else (0, 6)) else if v < 208 then (if v < 192
    then (1, 6) else (6, 1)) else if v < 216 then (5, 1) else (3, 4)) else if v < 248 then (if v < 236 then (if
    v < 232 then (5, 0) else (4, 3)) else if v < 240 then (3, 3) else (2, 4)) else if v < 264 then (if v < 256
    then (4, 2) else (1, 4)) else if v < 272 then (4, 1) else (0, 4)) else if v < 448 then (if v < 352 then (if
    v < 304 then (if v < 288 then (4, 0) else (2, 3)) else if v < 320 then (3, 2) else (1, 3)) else if v < 400
    then (if v < 384 then (3, 1) else (0, 3)) else if v < 416 then (3, 0) else (2, 2)) else if v < 768 then (if
    v < 640 then (if v < 512 then (2, 1) else (1, 2)) else if v < 704 then (0, 2) else (2, 0)) else if v < 1280
    then (if v < 1024 then (1, 1) else (0, 1)) else if v < 1536 then (1, 0) else (0, 0)
  }

  /** Table 12: a window of 10 bits. */
  function Lookup12(v: nat): (nat, nat) {
    if v < 108 then (if v < 40 then (if v < 14 then (if v < 6 then (if v < 2 then (if v < 1 then (7, 7) else
    (6, 7)) else if v < 4 then (7, 6) else (5, 7)) else if v < 10 then (if v < 8 then (7, 5) else (6, 6)) else
    if v < 12 then (4, 7) else (7, 4)) else if v < 26 then (if v < 20 then (if v < 16 then (6, 5) else (5, 6))
    else if v < 24 then (3, 7) else (7, 3)) else if v < 32 then (if v < 28 then (5, 5) else (2, 7)) else if v <
    36 then (7, 2) else (4, 6)) else if v < 68 then (if v < 54 then (if v < 48 then (if v < 44 then (6, 4) else
    (1, 7)) else if v < 52 then (7, 1) else (0, 7)) else if v < 60 then (if v < 56 then (7, 0) else (3, 6)) else
    if v < 64 then (6, 3) else (4, 5)) else if v < 80 then (if v < 76 then (if v < 72 then (5, 4) else (4, 4))
    else if v < 78 then (0, 6) else (0, 5)) else if v < 96 then (if v < 88 then (2, 6) else (6, 2)) else if v <
    104 then (6, 1) else (1, 6)) else if v < 224 then (if v < 152 then (if v < 124 then (if v < 116 then (if v <
    112 then (6, 0) else (3, 5)) else if v < 120 then (5, 3) else (2, 5)) else if v < 136 then (if v < 128 then
    (5, 2) else (1, 5)) else if v < 144 then (5, 1) else (3, 4)) else if v < 176 then (if v < 164 then (if v <
    160 then (4, 3) else (5, 0)) else if v < 168 then (0, 4) else (2, 4)) else if v < 192 then (if v < 184 then
    (4, 2) else (1, 4)) else if v < 208 then (3, 3) else (4, 1)) else if v < 384 then (if v < 272 then (if v <
    256 then (if v < 240 then (2, 3) else (3, 2)) else if v < 264 then (4, 0) else (0, 3)) else if v < 320 then
    (if v < 288 then (3, 0) else (1, 3)) else if v < 352 then (3, 1) else (2, 2)) else if v < 576 then (if v <
    512 then (if v < 448 then (1, 2) else (2, 1)) else if v < 544 then (0, 2) else (2, 0)) else if v < 768 then
    (if v < 640 then (0, 0) else (1, 1)) else if v < 896 then (0, 1) else (1, 0)
  }

  /** Table 13: a window of 19 bits. */
  function Lookup13(v: nat): (nat, nat) {
    if v < 7168 then (if v < 1312 then (if v < 320 then (if v < 96 then (if v < 40 then (if v < 8 then (if v < 2
    then (if v < 1 then (15, 14) else (15, 12)) else if v < 4 then (15, 13) else (14, 13)) else if v < 24 then
    (if v < 16 then (15, 15) else (14, 15)) else if v < 32 then (13, 15) else (14, 14)) else if v < 72 then (if
    v < 56 then (if v < 48 then (12, 15) else (13, 14)) else if v < 64 then (11, 15) else (15, 11)) else if v <
    88 then (if v < 80 then (12, 14) else (13, 12)) else if v < 92 then (10, 15) else (14, 9)) else if v < 208
    then (if v < 144 then (if v < 128 then (if v < 112 then (14, 12) else (13, 13)) else if v < 136 then
    (15, 10) else (12, 13)) else if v < 176 then (if v < 160 then (11, 14) else (14, 11)) else if v < 192 then
    (9, 15) else (15, 9)) else if v < 272 then (if v < 240 then (if v < 224 then (14, 10) else (11, 13)) else if
    v < 256 then (13, 11) else (8, 15)) else if v < 304 then (if v < 288 then (15, 8) else (12, 12)) else if v <
    312 then (10, 14) else (9, 14)) else if v < 704 then (if v < 464 then (if v < 384 then (if v < 344 then (if
    v < 336 then (8, 14) else (7, 15)) else if v < 352 then (7, 14) else (15, 7)) else if v < 432 then (if v <
    416 then (13, 10) else (10, 13)) else if v < 448 then (11, 12) else (12, 11)) else if v < 576 then (if v <
    512 then (if v < 480 then (15, 6) else (6, 15)) else if v < 544 then (14, 8) else (5, 15)) else if v < 640
    then (if v < 608 then (9, 13) else (13, 9)) else if v < 672 then (15, 5) else (14, 7)) else if v < 960 then
    (if v < 832 then (if v < 768 then (if v < 736 then (10, 12) else (11, 11)) else if v < 800 then (4, 15) else
    (15, 4)) else if v < 864 then (if v < 848 then (12, 10) else (14, 6)) else if v < 896 then (15, 3) else
    (3, 15)) else if v < 1152 then (if v < 1024 then (if v < 992 then (8, 13) else (13, 8)) else if v < 1088
    then (2, 15) else (15, 2)) else if v < 1216 then (if v < 1184 then (6, 14) else (9, 12)) else if v < 1280
    then (0, 15) else (12, 9)) else if v < 3520 then (if v < 2304 then (if v < 1664 then (if v < 1472 then (if v
    < 1408 then (if v < 1344 then (5, 14) else (10, 11)) else if v < 1440 then (7, 13) else (13, 7)) else if v <
    1568 then (if v < 1536 then (4, 14) else (12, 8)) else if v < 1600 then (13, 6) else (3, 14)) else if v <
    1920 then (if v < 1760 then (if v < 1728 then (11, 9) else (9, 11)) else if v < 1792 then (10, 10) else
    (1, 15)) else if v < 2176 then (if v < 2048 then (15, 1) else (15, 0)) else if v < 2240 then (11, 10) else
    (14, 5)) else if v < 2944 then (if v < 2560 then (if v < 2432 then (if v < 2368 then (14, 4) else (8, 12))
    else if v < 2496 then (6, 13) else (14, 3)) else if v < 2752 then (if v < 2688 then (14, 2) else (2, 14))
    else if v < 2816 then (0, 14) else (1, 14)) else if v < 3264 then (if v < 3136 then (if v < 3072 then
    (14, 1) else (14, 0)) else if v < 3200 then (5, 13) else (13, 5)) else if v < 3392 then (if v < 3328 then
    (7, 12) else (12, 7)) else if v < 3456 then (4, 13) else (8, 11)) else if v < 4928 then (if v < 4160 then
    (if v < 3776 then (if v < 3648 then (if v < 3584 then (11, 8) else (13, 4)) else if v < 3712 then (9, 10)
    else (10, 9)) else if v < 3968 then (if v < 3840 then (6, 12) else (12, 6)) else if v < 4096 then (3, 13)
    else (13, 3)) else if v < 4608 then (if v < 4352 then (if v < 4224 then (7, 11) else (2, 13)) else if v <
    4480 then (13, 2) else (1, 13)) else if v < 4800 then (if v < 4736 then (11, 7) else (5, 12)) else if v <
    4864 then (12, 5) else (9, 9)) else if v < 5888 then (if v < 5248 then (if v < 5120 then (if v < 4992 then
    (7, 10) else (12, 3)) else if v < 5184 then (10, 7) else (9, 7)) else if v < 5632 then (if v < 5376 then
    (4, 11) else (13, 1)) else if v < 5760 then (0, 13) else (13, 0)) else if v < 6400 then (if v < 6144 then
    (if v < 6016 then (8, 10) else (10, 8)) else if v < 6272 then (4, 12) else (12, 4)) else if v < 6656 then
    (if v < 6528 then (6, 11) else (11, 6)) else if v < 6912 then (3, 12) else (2, 12)) else if v < 25600 then
    (if v < 14080 then (if v < 10112 then (if v < 8704 then (if v < 7936 then (if v < 7680 then (if v < 7424
    then (12, 2) else (5, 11)) else if v < 7808 then (11, 5) else (8, 9)) else if v < 8448 then (if v < 8192
    then (1, 12) else (12, 1)) else if v < 8576 then (9, 8) else (0, 12)) else if v < 9344 then (if v < 9088
    then (if v < 8960 then (12, 0) else (11, 4)) else if v < 9216 then (6, 10) else (10, 6)) else if v < 9728
    then (if v < 9472 then (7, 9) else (3, 11)) else if v < 9984 then (11, 3) else (8, 8)) else if v < 11520
    then (if v < 10752 then (if v < 10496 then (if v < 10240 then (5, 10) else (2, 11)) else if v < 10624 then
    (10, 5) else (6, 9)) else if v < 11136 then (if v < 11008 then (10, 4) else (7, 8)) else if v < 11264 then
    (8, 7) else (9, 4)) else if v < 12800 then (if v < 11776 then (if v < 11648 then (7, 7) else (7, 6)) else if
    v < 12288 then (11, 2) else (1, 11)) else if v < 13568 then (if v < 13312 then (11, 1) else (0, 11)) else if
    v < 13824 then (11, 0) else (9, 6)) else if v < 19712 then (if v < 16896 then (if v < 15104 then (if v <
    14592 then (if v < 14336 then (4, 10) else (3, 10)) else if v < 14848 then (10, 3) else (5, 9)) else if v <
    15872 then (if v < 15360 then (9, 5) else (2, 10)) else if v < 16384 then (10, 2) else (1, 10)) else if v <
    18432 then (if v < 17664 then (if v < 17408 then (10, 1) else (0, 10)) else if v < 17920 then (6, 8) else
    (10, 0)) else if v < 18944 then (if v < 18688 then (8, 6) else (4, 9)) else if v < 19456 then (9, 3) else
    (3, 9)) else if v < 22528 then (if v < 20992 then (if v < 20224 then (if v < 19968 then (5, 8) else (8, 5))
    else if v < 20480 then (6, 7) else (2, 9)) else if v < 21760 then (if v < 21504 then (9, 2) else (5, 7))
    else if v < 22016 then (7, 5) else (3, 8)) else if v < 23808 then (if v < 23296 then (if v < 23040 then
    (8, 3) else (6, 6)) else if v < 23552 then (4, 7) else (7, 4)) else if v < 24320 then (if v < 24064 then
    (5, 6) else (6, 5)) else if v < 24576 then (7, 3) else (1, 9)) else if v < 49152 then (if v < 36352 then (if
    v < 29696 then (if v < 28160 then (if v < 27136 then (if v < 26624 then (9, 1) else (0, 9)) else if v <
    27648 then (9, 0) else (4, 8)) else if v < 29184 then (if v < 28672 then (8, 4) else (7, 2)) else if v <
    29440 then (4, 6) else (6, 4)) else if v < 33280 then (if v < 31744 then (if v < 30720 then (2, 8) else
    (8, 2)) else if v < 32768 then (1, 8) else (3, 7)) else if v < 34816 then (if v < 33792 then (2, 7) else
    (1, 7)) else if v < 35840 then (7, 1) else (5, 5)) else if v < 40448 then (if v < 38400 then (if v < 37376
    then (if v < 36864 then (0, 7) else (7, 0)) else if v < 37888 then (3, 6) else (6, 3)) else if v < 39424
    then (if v < 38912 then (4, 5) else (5, 4)) else if v < 39936 then (2, 6) else (6, 2)) else if v < 45056
    then (if v < 43008 then (if v < 40960 then (3, 5) else (8, 1)) else if v < 44032 then (0, 8) else (8, 0))
    else if v < 47104 then (if v < 46080 then (1, 6) else (6, 1)) else if v < 48128 then (0, 6) else (6, 0))
    else if v < 71680 then (if v < 58368 then (if v < 52224 then (if v < 50176 then (if v < 49664 then (5, 3)
    else (4, 4)) else if v < 51200 then (2, 5) else (5, 2)) else if v < 55296 then (if v < 53248 then (0, 5)
    else (1, 5)) else if v < 57344 then (5, 1) else (3, 4)) else if v < 62464 then (if v < 60416 then (if v <
    59392 then (4, 3) else (5, 0)) else if v < 61440 then (2, 4) else (4, 2)) else if v < 65536 then (if v <
    63488 then (3, 3) else (1, 4)) else if v < 69632 then (4, 1) else (0, 4)) else if v < 98304 then (if v <
    81920 then (if v < 75776 then (if v < 73728 then (4, 0) else (2, 3)) else if v < 77824 then (3, 2) else
    (1, 3)) else if v < 90112 then (if v < 86016 then (3, 1) else (0, 3)) else if v < 94208 then (3, 0) else
    (2, 2)) else if v < 131072 then (if v < 114688 then (if v < 106496 then (1, 2) else (2, 1)) else if v <
    122880 then (0, 2) else (2, 0)) else if v < 196608 then (if v < 163840 then (1, 1) else (0, 1)) else if v <
    262144 then (1, 0) else (0, 0)
  }

  /** Table 15: a window of 13 bits. */
  function Lookup15(v: nat): (nat, nat) {
    if v < 476 then (if v < 148 then (if v < 52 then (if v < 20 then (if v < 9 then (if v < 4 then (if v < 2
    then (if v < 1 then (15, 15) else (14, 15)) else if v < 3 then (15, 14) else (13, 15)) else if v < 7 then
    (if v < 6 then (14, 14) else (15, 13)) else if v < 8 then (12, 15) else (15, 12)) else if v < 14 then (if v
    < 11 then (if v < 10 then (13, 14) else (14, 13)) else if v < 12 then (11, 15) else (15, 11)) else if v < 16
    then (if v < 15 then (12, 14) else (14, 12)) else if v < 18 then (13, 13) else (10, 15)) else if v < 36 then
    (if v < 28 then (if v < 24 then (if v < 22 then (15, 10) else (11, 14)) else if v < 26 then (14, 11) else
    (12, 13)) else if v < 32 then (if v < 30 then (13, 12) else (9, 15)) else if v < 34 then (15, 9) else
    (14, 10)) else if v < 44 then (if v < 40 then (if v < 38 then (11, 13) else (13, 11)) else if v < 42 then
    (8, 15) else (15, 8)) else if v < 48 then (if v < 46 then (12, 12) else (9, 14)) else if v < 50 then (14, 9)
    else (7, 15)) else if v < 92 then (if v < 68 then (if v < 60 then (if v < 56 then (if v < 54 then (15, 7)
    else (10, 13)) else if v < 58 then (13, 10) else (11, 12)) else if v < 63 then (if v < 62 then (6, 15) else
    (10, 14)) else if v < 64 then (0, 15) else (12, 11)) else if v < 78 then (if v < 74 then (if v < 72 then
    (15, 6) else (8, 14)) else if v < 76 then (14, 8) else (5, 15)) else if v < 84 then (if v < 80 then (9, 13)
    else (15, 5)) else if v < 88 then (7, 14) else (14, 7)) else if v < 120 then (if v < 106 then (if v < 100
    then (if v < 96 then (10, 12) else (12, 10)) else if v < 104 then (11, 11) else (13, 9)) else if v < 112
    then (if v < 108 then (8, 13) else (4, 15)) else if v < 116 then (15, 4) else (3, 15)) else if v < 136 then
    (if v < 128 then (if v < 124 then (15, 3) else (13, 8)) else if v < 132 then (14, 6) else (2, 15)) else if v
    < 142 then (if v < 140 then (15, 2) else (6, 14)) else if v < 144 then (15, 0) else (1, 15)) else if v < 272
    then (if v < 212 then (if v < 180 then (if v < 164 then (if v < 156 then (if v < 152 then (15, 1) else
    (9, 12)) else if v < 160 then (12, 9) else (5, 14)) else if v < 172 then (if v < 168 then (10, 11) else
    (11, 10)) else if v < 176 then (14, 5) else (7, 13)) else if v < 196 then (if v < 188 then (if v < 184 then
    (13, 7) else (4, 14)) else if v < 192 then (14, 4) else (8, 12)) else if v < 204 then (if v < 200 then
    (12, 8) else (3, 14)) else if v < 208 then (6, 13) else (13, 6)) else if v < 244 then (if v < 228 then (if v
    < 220 then (if v < 216 then (14, 3) else (9, 11)) else if v < 224 then (11, 9) else (2, 14)) else if v < 236
    then (if v < 232 then (10, 10) else (14, 2)) else if v < 240 then (1, 14) else (14, 1)) else if v < 256 then
    (if v < 248 then (if v < 246 then (0, 14) else (14, 0)) else if v < 252 then (5, 13) else (13, 5)) else if v
    < 264 then (if v < 260 then (7, 12) else (12, 7)) else if v < 268 then (4, 13) else (8, 11)) else if v < 364
    then (if v < 312 then (if v < 292 then (if v < 284 then (if v < 280 then (13, 4) else (11, 8)) else if v <
    288 then (9, 10) else (10, 9)) else if v < 300 then (if v < 296 then (6, 12) else (12, 6)) else if v < 304
    then (3, 13) else (13, 3)) else if v < 336 then (if v < 324 then (if v < 320 then (13, 2) else (2, 13)) else
    if v < 328 then (0, 13) else (1, 13)) else if v < 352 then (if v < 344 then (7, 11) else (11, 7)) else if v
    < 360 then (13, 1) else (5, 12)) else if v < 424 then (if v < 392 then (if v < 376 then (if v < 368 then
    (13, 0) else (12, 5)) else if v < 384 then (8, 10) else (10, 8)) else if v < 408 then (if v < 400 then
    (4, 12) else (12, 4)) else if v < 416 then (6, 11) else (11, 6)) else if v < 448 then (if v < 432 then (if v
    < 428 then (9, 9) else (0, 12)) else if v < 440 then (3, 12) else (12, 3)) else if v < 464 then (if v < 456
    then (7, 10) else (10, 7)) else if v < 472 then (10, 6) else (12, 0)) else if v < 1264 then (if v < 768 then
    (if v < 616 then (if v < 544 then (if v < 512 then (if v < 496 then (if v < 480 then (0, 11) else (12, 2))
    else if v < 504 then (2, 12) else (5, 11)) else if v < 528 then (if v < 520 then (11, 5) else (1, 12)) else
    if v < 536 then (8, 9) else (9, 8)) else if v < 576 then (if v < 560 then (if v < 552 then (12, 1) else
    (4, 11)) else if v < 568 then (11, 4) else (6, 10)) else if v < 592 then (if v < 584 then (3, 11) else
    (7, 9)) else if v < 608 then (11, 3) else (9, 7)) else if v < 696 then (if v < 656 then (if v < 632 then (if
    v < 624 then (8, 8) else (2, 11)) else if v < 640 then (5, 10) else (11, 2)) else if v < 672 then (if v <
    664 then (10, 5) else (1, 11)) else if v < 688 then (11, 1) else (11, 0)) else if v < 728 then (if v < 712
    then (if v < 704 then (6, 9) else (9, 6)) else if v < 720 then (4, 10) else (10, 4)) else if v < 744 then
    (if v < 736 then (7, 8) else (8, 7)) else if v < 752 then (3, 10) else (10, 3)) else if v < 992 then (if v <
    880 then (if v < 832 then (if v < 800 then (if v < 784 then (5, 9) else (9, 5)) else if v < 816 then (2, 10)
    else (10, 2)) else if v < 864 then (if v < 848 then (1, 10) else (10, 1)) else if v < 872 then (0, 10) else
    (10, 0)) else if v < 944 then (if v < 912 then (if v < 896 then (6, 8) else (8, 6)) else if v < 928 then
    (4, 9) else (9, 4)) else if v < 976 then (if v < 960 then (3, 9) else (9, 3)) else if v < 984 then (7, 7)
    else (0, 9)) else if v < 1136 then (if v < 1056 then (if v < 1024 then (if v < 1008 then (5, 8) else (8, 5))
    else if v < 1040 then (2, 9) else (6, 7)) else if v < 1088 then (if v < 1072 then (7, 6) else (9, 2)) else
    if v < 1120 then (9, 1) else (1, 9)) else if v < 1200 then (if v < 1168 then (if v < 1152 then (9, 0) else
    (4, 8)) else if v < 1184 then (8, 4) else (5, 7)) else if v < 1232 then (if v < 1216 then (7, 5) else
    (3, 8)) else if v < 1248 then (8, 3) else (6, 6)) else if v < 2112 then (if v < 1632 then (if v < 1456 then
    (if v < 1376 then (if v < 1312 then (if v < 1280 then (4, 7) else (2, 8)) else if v < 1344 then (8, 2) else
    (1, 8)) else if v < 1424 then (if v < 1408 then (8, 1) else (7, 4)) else if v < 1440 then (0, 8) else
    (8, 0)) else if v < 1520 then (if v < 1488 then (if v < 1472 then (5, 6) else (6, 5)) else if v < 1504 then
    (3, 7) else (7, 3)) else if v < 1568 then (if v < 1536 then (4, 6) else (2, 7)) else if v < 1600 then (7, 2)
    else (6, 4)) else if v < 1856 then (if v < 1744 then (if v < 1696 then (if v < 1664 then (1, 7) else (5, 5))
    else if v < 1728 then (7, 1) else (0, 7)) else if v < 1792 then (if v < 1760 then (7, 0) else (3, 6)) else
    if v < 1824 then (6, 3) else (4, 5)) else if v < 1984 then (if v < 1920 then (if v < 1888 then (5, 4) else
    (2, 6)) else if v < 1952 then (6, 2) else (1, 6)) else if v < 2016 then (if v < 2000 then (0, 6) else
    (6, 0)) else if v < 2048 then (3, 5) else (6, 1)) else if v < 3072 then (if v < 2496 then (if v < 2304 then
    (if v < 2176 then (if v < 2144 then (5, 3) else (4, 4)) else if v < 2240 then (2, 5) else (5, 2)) else if v
    < 2432 then (if v < 2368 then (1, 5) else (5, 1)) else if v < 2464 then (0, 5) else (5, 0)) else if v < 2752
    then (if v < 2624 then (if v < 2560 then (3, 4) else (4, 3)) else if v < 2688 then (2, 4) else (4, 2)) else
    if v < 2944 then (if v < 2816 then (3, 3) else (4, 1)) else if v < 3008 then (1, 4) else (0, 4)) else if v <
    4096 then (if v < 3456 then (if v < 3328 then (if v < 3200 then (2, 3) else (3, 2)) else if v < 3392 then
    (4, 0) else (0, 3)) else if v < 3712 then (if v < 3584 then (1, 3) else (3, 1)) else if v < 3840 then (3, 0)
    else (2, 2)) else if v < 5120 then (if v < 4608 then (if v < 4352 then (1, 2) else (2, 1)) else if v < 4864
    then (0, 2) else (2, 0)) else if v < 6656 then (if v < 6144 then (1, 1) else (0, 1)) else if v < 7168 then
    (1, 0) else (0, 0)
  }

  /** Table 16: a window of 17 bits. */
  function Lookup16(v: nat): (nat, nat) {
    if v < 6832 then (if v < 5704 then (if v < 3470 then (if v < 1280 then (if v < 512 then (if v < 256 then (if
    v < 128 then (if v < 64 then (14, 15) else (15, 14)) else if v < 192 then (13, 15) else (15, 13)) else if v
    < 384 then (if v < 320 then (12, 15) else (15, 12)) else if v < 448 then (11, 15) else (15, 11)) else if v <
    832 then (if v < 704 then (if v < 640 then (10, 15) else (15, 10)) else if v < 768 then (9, 15) else
    (15, 9)) else if v < 1024 then (if v < 896 then (15, 8) else (8, 15)) else if v < 1152 then (7, 15) else
    (15, 7)) else if v < 3072 then (if v < 2176 then (if v < 1536 then (if v < 1408 then (6, 15) else (15, 6))
    else if v < 2048 then (15, 15) else (5, 15)) else if v < 2560 then (if v < 2304 then (15, 5) else (4, 15))
    else if v < 2816 then (15, 4) else (15, 3)) else if v < 3459 then (if v < 3456 then (if v < 3328 then
    (15, 0) else (3, 15)) else if v < 3458 then (12, 14) else (14, 12)) else if v < 3464 then (if v < 3460 then
    (13, 13) else (13, 14)) else if v < 3468 then (14, 9) else (14, 10)) else if v < 3556 then (if v < 3512 then
    (if v < 3488 then (if v < 3480 then (if v < 3472 then (13, 9) else (14, 14)) else if v < 3484 then (14, 13)
    else (14, 11)) else if v < 3504 then (if v < 3496 then (11, 14) else (12, 13)) else if v < 3508 then
    (13, 12) else (13, 11)) else if v < 3536 then (if v < 3528 then (if v < 3520 then (10, 14) else (12, 12))
    else if v < 3532 then (10, 13) else (13, 10)) else if v < 3544 then (if v < 3540 then (7, 14) else (10, 12))
    else if v < 3552 then (12, 10) else (12, 9)) else if v < 5632 then (if v < 4096 then (if v < 3568 then (if v
    < 3560 then (7, 13) else (5, 14)) else if v < 3584 then (11, 13) else (15, 2)) else if v < 4608 then (if v <
    4352 then (2, 15) else (0, 15)) else if v < 5120 then (1, 15) else (15, 1)) else if v < 5672 then (if v <
    5656 then (if v < 5648 then (9, 14) else (11, 12)) else if v < 5664 then (12, 11) else (8, 14)) else if v <
    5688 then (if v < 5680 then (14, 8) else (9, 13)) else if v < 5696 then (14, 7) else (11, 11)) else if v <
    6096 then (if v < 5880 then (if v < 5784 then (if v < 5744 then (if v < 5720 then (if v < 5712 then (8, 13)
    else (13, 8)) else if v < 5728 then (6, 14) else (14, 6)) else if v < 5768 then (if v < 5760 then (9, 12)
    else (10, 11)) else if v < 5776 then (11, 10) else (14, 5)) else if v < 5824 then (if v < 5808 then (if v <
    5792 then (13, 7) else (4, 14)) else if v < 5816 then (14, 4) else (8, 12)) else if v < 5856 then (if v <
    5840 then (12, 8) else (3, 14)) else if v < 5872 then (6, 13) else (13, 6)) else if v < 5968 then (if v <
    5920 then (if v < 5896 then (if v < 5888 then (9, 11) else (11, 9)) else if v < 5904 then (10, 10) else
    (14, 1)) else if v < 5944 then (if v < 5936 then (13, 4) else (11, 8)) else if v < 5952 then (10, 9) else
    (7, 11)) else if v < 6032 then (if v < 5984 then (if v < 5976 then (11, 7) else (13, 0)) else if v < 6016
    then (14, 3) else (0, 14)) else if v < 6064 then (if v < 6048 then (14, 0) else (5, 13)) else if v < 6080
    then (13, 5) else (7, 12)) else if v < 6368 then (if v < 6224 then (if v < 6160 then (if v < 6128 then (if v
    < 6112 then (12, 7) else (4, 13)) else if v < 6144 then (8, 11) else (9, 10)) else if v < 6192 then (if v <
    6176 then (6, 12) else (12, 6)) else if v < 6208 then (3, 13) else (5, 12)) else if v < 6304 then (if v <
    6272 then (if v < 6240 then (12, 5) else (0, 13)) else if v < 6288 then (8, 10) else (10, 8)) else if v <
    6336 then (if v < 6320 then (9, 9) else (4, 12)) else if v < 6352 then (11, 6) else (7, 10)) else if v <
    6592 then (if v < 6464 then (if v < 6416 then (if v < 6400 then (3, 12) else (5, 11)) else if v < 6432 then
    (8, 9) else (1, 12)) else if v < 6512 then (if v < 6496 then (12, 0) else (9, 8)) else if v < 6528 then
    (7, 9) else (14, 2)) else if v < 6720 then (if v < 6656 then (if v < 6624 then (2, 14) else (1, 14)) else if
    v < 6688 then (13, 3) else (2, 13)) else if v < 6784 then (if v < 6752 then (13, 2) else (13, 1)) else if v
    < 6816 then (3, 11) else (9, 7)) else if v < 10304 then (if v < 8096 then (if v < 7424 then (if v < 7136
    then (if v < 6976 then (if v < 6912 then (if v < 6848 then (8, 8) else (1, 13)) else if v < 6944 then
    (12, 4) else (6, 11)) else if v < 7040 then (if v < 7008 then (12, 3) else (10, 7)) else if v < 7104 then
    (2, 12) else (12, 2)) else if v < 7264 then (if v < 7200 then (if v < 7168 then (11, 5) else (12, 1)) else
    if v < 7232 then (0, 12) else (4, 11)) else if v < 7328 then (if v < 7296 then (11, 4) else (6, 10)) else if
    v < 7360 then (10, 6) else (11, 3)) else if v < 7808 then (if v < 7616 then (if v < 7488 then (if v < 7456
    then (5, 10) else (10, 5)) else if v < 7552 then (2, 11) else (11, 2)) else if v < 7744 then (if v < 7680
    then (1, 11) else (11, 1)) else if v < 7776 then (0, 11) else (11, 0)) else if v < 7936 then (if v < 7872
    then (if v < 7840 then (6, 9) else (9, 6)) else if v < 7904 then (4, 10) else (10, 4)) else if v < 8000 then
    (if v < 7968 then (7, 8) else (8, 7)) else if v < 8064 then (10, 3) else (3, 10)) else if v < 9024 then (if
    v < 8448 then (if v < 8256 then (if v < 8192 then (if v < 8128 then (5, 9) else (2, 10)) else if v < 8224
    then (9, 5) else (6, 8)) else if v < 8352 then (if v < 8320 then (10, 1) else (8, 6)) else if v < 8384 then
    (7, 7) else (9, 4)) else if v < 8704 then (if v < 8512 then (if v < 8480 then (4, 9) else (5, 7)) else if v
    < 8576 then (6, 7) else (10, 2)) else if v < 8896 then (if v < 8832 then (1, 10) else (0, 10)) else if v <
    8960 then (10, 0) else (3, 9)) else if v < 9728 then (if v < 9344 then (if v < 9152 then (if v < 9088 then
    (9, 3) else (5, 8)) else if v < 9216 then (8, 5) else (2, 9)) else if v < 9536 then (if v < 9472 then (9, 2)
    else (7, 6)) else if v < 9600 then (0, 9) else (1, 9)) else if v < 10048 then (if v < 9920 then (if v < 9856
    then (9, 1) else (9, 0)) else if v < 9984 then (4, 8) else (8, 4)) else if v < 10176 then (if v < 10112 then
    (7, 5) else (3, 8)) else if v < 10240 then (8, 3) else (6, 6)) else if v < 14592 then (if v < 11840 then (if
    v < 11072 then (if v < 10624 then (if v < 10496 then (if v < 10368 then (2, 8) else (8, 2)) else if v <
    10560 then (4, 7) else (7, 4)) else if v < 10880 then (if v < 10752 then (1, 8) else (8, 1)) else if v <
    11008 then (8, 0) else (0, 8)) else if v < 11456 then (if v < 11264 then (if v < 11136 then (5, 6) else
    (3, 7)) else if v < 11392 then (7, 3) else (6, 5)) else if v < 11648 then (if v < 11520 then (4, 6) else
    (2, 7)) else if v < 11776 then (7, 2) else (6, 4)) else if v < 13056 then (if v < 12544 then (if v < 12032
    then (if v < 11904 then (5, 5) else (0, 7)) else if v < 12288 then (1, 7) else (7, 1)) else if v < 12800
    then (if v < 12672 then (7, 0) else (3, 6)) else if v < 12928 then (6, 3) else (4, 5)) else if v < 13824
    then (if v < 13312 then (if v < 13184 then (5, 4) else (2, 6)) else if v < 13568 then (6, 2) else (1, 6))
    else if v < 14208 then (if v < 14080 then (6, 1) else (0, 6)) else if v < 14336 then (6, 0) else (5, 3))
    else if v < 19200 then (if v < 16640 then (if v < 15360 then (if v < 14848 then (if v < 14720 then (3, 5)
    else (4, 4)) else if v < 15104 then (2, 5) else (5, 2)) else if v < 16128 then (if v < 15872 then (5, 1)
    else (1, 5)) else if v < 16384 then (0, 5) else (3, 4)) else if v < 17664 then (if v < 17152 then (if v <
    16896 then (4, 3) else (5, 0)) else if v < 17408 then (2, 4) else (4, 2)) else if v < 18432 then (if v <
    17920 then (3, 3) else (1, 4)) else if v < 18944 then (4, 1) else (0, 4)) else if v < 24576 then (if v <
    21504 then (if v < 19968 then (if v < 19456 then (4, 0) else (2, 3)) else if v < 20480 then (3, 2) else
    (1, 3)) else if v < 23040 then (if v < 22528 then (3, 1) else (0, 3)) else if v < 23552 then (3, 0) else
    (2, 2)) else if v < 32768 then (if v < 28672 then (if v < 26624 then (1, 2) else (2, 1)) else if v < 30720
    then (0, 2) else (2, 0)) else if v < 49152 then (if v < 40960 then (1, 1) else (0, 1)) else if v < 65536
    then (1, 0) else (0, 0)
  }

  /** Table 24: a window of 12 bits. */
  function Lookup24(v: nat): (nat, nat) {
    if v < 1268 then (if v < 1033 then (if v < 716 then (if v < 320 then (if v < 128 then (if v < 64 then (if v
    < 32 then (if v < 16 then (14, 15) else (15, 14)) else if v < 48 then (13, 15) else (15, 13)) else if v < 96
    then (if v < 80 then (12, 15) else (15, 12)) else if v < 112 then (11, 15) else (15, 11)) else if v < 224
    then (if v < 176 then (if v < 160 then (15, 10) else (10, 15)) else if v < 192 then (9, 15) else (15, 9))
    else if v < 272 then (if v < 256 then (15, 8) else (8, 15)) else if v < 288 then (7, 15) else (15, 7)) else
    if v < 576 then (if v < 448 then (if v < 384 then (if v < 352 then (6, 15) else (15, 6)) else if v < 416
    then (5, 15) else (15, 5)) else if v < 512 then (if v < 480 then (4, 15) else (15, 4)) else if v < 544 then
    (3, 15) else (15, 3)) else if v < 688 then (if v < 640 then (if v < 608 then (2, 15) else (15, 2)) else if v
    < 672 then (15, 1) else (1, 15)) else if v < 712 then (if v < 704 then (15, 0) else (0, 15)) else if v < 714
    then (14, 14) else (13, 14)) else if v < 748 then (if v < 732 then (if v < 724 then (if v < 720 then (if v <
    718 then (14, 13) else (12, 14)) else if v < 722 then (14, 12) else (13, 13)) else if v < 728 then (if v <
    726 then (11, 14) else (14, 11)) else if v < 730 then (12, 13) else (13, 12)) else if v < 740 then (if v <
    736 then (if v < 734 then (10, 14) else (14, 10)) else if v < 738 then (11, 13) else (13, 11)) else if v <
    744 then (if v < 742 then (12, 12) else (9, 14)) else if v < 746 then (14, 9) else (10, 13)) else if v < 764
    then (if v < 756 then (if v < 752 then (if v < 750 then (13, 10) else (11, 12)) else if v < 754 then
    (12, 11) else (8, 14)) else if v < 760 then (if v < 758 then (14, 8) else (9, 13)) else if v < 762 then
    (13, 9) else (7, 14)) else if v < 1026 then (if v < 768 then (if v < 766 then (14, 7) else (10, 12)) else if
    v < 1024 then (15, 15) else (12, 10)) else if v < 1030 then (if v < 1028 then (11, 11) else (8, 13)) else if
    v < 1032 then (13, 8) else (0, 14)) else if v < 1144 then (if v < 1082 then (if v < 1056 then (if v < 1042
    then (if v < 1036 then (if v < 1034 then (14, 0) else (0, 13)) else if v < 1040 then (14, 6) else (6, 14))
    else if v < 1048 then (if v < 1044 then (9, 12) else (12, 9)) else if v < 1052 then (5, 14) else (11, 10))
    else if v < 1068 then (if v < 1062 then (if v < 1060 then (14, 5) else (10, 11)) else if v < 1064 then
    (7, 13) else (13, 7)) else if v < 1076 then (if v < 1072 then (14, 4) else (8, 12)) else if v < 1080 then
    (12, 8) else (4, 14)) else if v < 1112 then (if v < 1096 then (if v < 1088 then (if v < 1084 then (2, 14)
    else (3, 14)) else if v < 1092 then (6, 13) else (13, 6)) else if v < 1104 then (if v < 1100 then (14, 3)
    else (9, 11)) else if v < 1108 then (11, 9) else (10, 10)) else if v < 1128 then (if v < 1120 then (if v <
    1116 then (14, 2) else (1, 14)) else if v < 1124 then (14, 1) else (5, 13)) else if v < 1136 then (if v <
    1132 then (13, 5) else (7, 12)) else if v < 1140 then (12, 7) else (4, 13)) else if v < 1208 then (if v <
    1176 then (if v < 1160 then (if v < 1152 then (if v < 1148 then (8, 11) else (11, 8)) else if v < 1156 then
    (13, 4) else (9, 10)) else if v < 1168 then (if v < 1164 then (10, 9) else (6, 12)) else if v < 1172 then
    (12, 6) else (3, 13)) else if v < 1192 then (if v < 1184 then (if v < 1180 then (13, 3) else (2, 13)) else
    if v < 1188 then (13, 2) else (1, 13)) else if v < 1200 then (if v < 1196 then (7, 11) else (11, 7)) else if
    v < 1204 then (13, 1) else (5, 12)) else if v < 1240 then (if v < 1224 then (if v < 1216 then (if v < 1212
    then (12, 5) else (8, 10)) else if v < 1220 then (10, 8) else (9, 9)) else if v < 1232 then (if v < 1228
    then (4, 12) else (12, 4)) else if v < 1236 then (6, 11) else (11, 6)) else if v < 1252 then (if v < 1244
    then (if v < 1242 then (13, 0) else (0, 12)) else if v < 1248 then (3, 12) else (12, 3)) else if v < 1260
    then (if v < 1256 then (7, 10) else (10, 7)) else if v < 1264 then (2, 12) else (12, 2)) else if v < 1656
    then (if v < 1408 then (if v < 1328 then (if v < 1298 then (if v < 1284 then (if v < 1276 then (if v < 1272
    then (5, 11) else (11, 5)) else if v < 1280 then (1, 12) else (8, 9)) else if v < 1292 then (if v < 1288
    then (9, 8) else (12, 1)) else if v < 1296 then (4, 11) else (12, 0)) else if v < 1308 then (if v < 1304
    then (if v < 1300 then (0, 11) else (3, 11)) else if v < 1306 then (11, 0) else (0, 10)) else if v < 1320
    then (if v < 1312 then (1, 10) else (11, 4)) else if v < 1324 then (6, 10) else (10, 6)) else if v < 1364
    then (if v < 1340 then (if v < 1336 then (if v < 1332 then (7, 9) else (9, 7)) else if v < 1338 then (10, 0)
    else (0, 9)) else if v < 1352 then (if v < 1344 then (9, 0) else (11, 3)) else if v < 1360 then (8, 8) else
    (2, 11)) else if v < 1384 then (if v < 1376 then (if v < 1368 then (5, 10) else (11, 2)) else if v < 1380
    then (10, 5) else (1, 11)) else if v < 1392 then (if v < 1388 then (11, 1) else (6, 9)) else if v < 1400
    then (9, 6) else (10, 4)) else if v < 1528 then (if v < 1464 then (if v < 1432 then (if v < 1416 then (if v
    < 1412 then (4, 10) else (7, 8)) else if v < 1424 then (8, 7) else (3, 10)) else if v < 1448 then (if v <
    1440 then (10, 3) else (5, 9)) else if v < 1456 then (9, 5) else (2, 10)) else if v < 1496 then (if v < 1480
    then (if v < 1472 then (10, 2) else (10, 1)) else if v < 1488 then (6, 8) else (8, 6)) else if v < 1512 then
    (if v < 1504 then (7, 7) else (4, 9)) else if v < 1520 then (9, 4) else (3, 9)) else if v < 1592 then (if v
    < 1560 then (if v < 1544 then (if v < 1536 then (9, 3) else (5, 8)) else if v < 1552 then (8, 5) else
    (2, 9)) else if v < 1576 then (if v < 1568 then (6, 7) else (7, 6)) else if v < 1584 then (9, 2) else
    (1, 9)) else if v < 1624 then (if v < 1608 then (if v < 1600 then (9, 1) else (4, 8)) else if v < 1616 then
    (8, 4) else (5, 7)) else if v < 1640 then (if v < 1632 then (7, 5) else (3, 8)) else if v < 1648 then (8, 3)
    else (6, 6)) else if v < 2016 then (if v < 1776 then (if v < 1712 then (if v < 1688 then (if v < 1672 then
    (if v < 1664 then (2, 8) else (8, 2)) else if v < 1680 then (1, 8) else (4, 7)) else if v < 1704 then (if v
    < 1696 then (7, 4) else (8, 1)) else if v < 1708 then (0, 8) else (8, 0)) else if v < 1740 then (if v < 1728
    then (if v < 1720 then (5, 6) else (6, 5)) else if v < 1736 then (1, 7) else (0, 7)) else if v < 1760 then
    (if v < 1744 then (7, 0) else (7, 3)) else if v < 1768 then (3, 7) else (2, 7)) else if v < 1904 then (if v
    < 1840 then (if v < 1808 then (if v < 1792 then (7, 2) else (4, 6)) else if v < 1824 then (6, 4) else
    (5, 5)) else if v < 1872 then (if v < 1856 then (7, 1) else (3, 6)) else if v < 1888 then (6, 3) else
    (4, 5)) else if v < 1968 then (if v < 1936 then (if v < 1920 then (5, 4) else (2, 6)) else if v < 1952 then
    (6, 2) else (1, 6)) else if v < 1992 then (if v < 1984 then (6, 1) else (0, 6)) else if v < 2000 then (6, 0)
    else (3, 5)) else if v < 2352 then (if v < 2144 then (if v < 2080 then (if v < 2048 then (if v < 2032 then
    (5, 3) else (4, 4)) else if v < 2064 then (2, 5) else (5, 2)) else if v < 2104 then (if v < 2096 then (1, 5)
    else (0, 5)) else if v < 2112 then (5, 0) else (5, 1)) else if v < 2240 then (if v < 2176 then (if v < 2160
    then (3, 4) else (4, 3)) else if v < 2208 then (2, 4) else (4, 2)) else if v < 2304 then (if v < 2272 then
    (3, 3) else (1, 4)) else if v < 2336 then (4, 1) else (0, 4)) else if v < 2688 then (if v < 2496 then (if v
    < 2400 then (if v < 2368 then (4, 0) else (2, 3)) else if v < 2432 then (3, 2) else (1, 3)) else if v < 2592
    then (if v < 2560 then (3, 1) else (0, 3)) else if v < 2624 then (3, 0) else (2, 2)) else if v < 3072 then
    (if v < 2944 then (if v < 2816 then (1, 2) else (2, 1)) else if v < 3008 then (0, 2) else (2, 0)) else if v
    < 3584 then (if v < 3328 then (1, 1) else (0, 1)) else if v < 3840 then (1, 0) else (0, 0)
  }

  /** Table 32: a window of 6 bits. */
  function Lookup32(v: nat): (nat, nat) {
    if v < 10 then (if v < 4 then (if v < 2 then (if v < 1 then (2, 3) else (3, 3)) else if v < 3 then (3, 1)
    else (3, 2)) else if v < 6 then (if v < 5 then (1, 3) else (1, 1)) else if v < 8 then (2, 1) else (1, 2))
    else if v < 20 then (if v < 14 then (if v < 12 then (0, 3) else (2, 2)) else if v < 16 then (3, 0) else
    (0, 2)) else if v < 28 then (if v < 24 then (0, 1) else (1, 0)) else if v < 32 then (2, 0) else (0, 0)
  }

  /** Table 33: a window of 4 bits. */
  function Lookup33(v: nat): (nat, nat) {
    if v < 8 then (if v < 4 then (if v < 2 then (if v < 1 then (3, 3) else (3, 2)) else if v < 3 then (3, 1)
    else (3, 0)) else if v < 6 then (if v < 5 then (2, 3) else (2, 2)) else if v < 7 then (2, 1) else (2, 0))
    else if v < 12 then (if v < 10 then (if v < 9 then (1, 3) else (1, 2)) else if v < 11 then (1, 1) else
    (1, 0)) else if v < 14 then (if v < 13 then (0, 3) else (0, 2)) else if v < 15 then (0, 1) else (0, 0)
  }
}

/** The Huffman tables of tables.c (table B.7 of ISO/IEC 11172-3).  A table is a function of the pair of
    values it codes; a length counts the code word and one sign bit for each nonzero value.  The two count1
    tables take the two high and the two low bits of a quadruple's pattern. */
module Tables {

  function t1HB(x: nat, y: nat): nat {
    match x
    case 0 => (match y case 0 => 1 case _ => 1)
    case _ => (match y case 0 => 1 case _ => 0)
  }

  function t2HB(x: nat, y: nat): nat {
    match x
    case 0 => (match y case 0 => 1 case 1 => 2 case _ => 1)
    case 1 => (match y case 0 => 3 case 1 => 1 case _ => 1)
    case _ => (match y case 0 => 3 case 1 => 2 case _ => 0)
  }

  function t3HB(x: nat, y: nat): nat {
    match x
    case 0 => (match y case 0 => 3 case 1 => 2 case _ => 1)
    case 1 => (match y case 0 => 1 case 1 => 1 case _ => 1)
    case _ => (match y case 0 => 3 case 1 => 2 case _ => 0)
  }

  function t5HB(x: nat, y: nat): nat {
    match x
    case 0 => (match y case 0 => 1 case 1 => 2 case 2 => 6 case _ => 5)
    case 1 => (match y case 0 => 3 case 1 => 1 case 2 => 4 case _ => 4)
    case 2 => (match y case 0 => 7 case 1 => 5 case 2 => 7 case _ => 1)
    case _ => (match y case 0 => 6 case 1 => 1 case 2 => 1 case _ => 0)
  }

  function t6HB(x: nat, y: nat): nat {
    match x
    case 0 => (match y case 0 => 7 case 1 => 3 case 2 => 5 case _ => 1)
    case 1 => (match y case 0 => 6 case 1 => 2 case 2 => 3 case _ => 2)
    case 2 => (match y case 0 => 5 case 1 => 4 case 2 => 4 case _ => 1)
    case _ => (match y case 0 => 3 case 1 => 3 case 2 => 2 case _ => 0)
  }

  function t7HB(x: nat, y: nat): nat {
    match x
    case 0 => (match y case 0 => 1 case 1 => 2 case 2 => 10 case 3 => 19 case 4 => 16 case _ => 10)
    case 1 => (match y case 0 => 3 case 1 => 3 case 2 => 7 case 3 => 10 case 4 => 5 case _ => 3)
    case 2 => (match y case 0 => 11 case 1 => 4 case 2 => 13 case 3 => 17 case 4 => 8 case _ => 4)
    case 3 => (match y case 0 => 12 case 1 => 11 case 2 => 18 case 3 => 15 case 4 => 11 case _ => 2)
    case 4 => (match y case 0 => 7 case 1 => 6 case 2 => 9 case 3 => 14 case 4 => 3 case _ => 1)
    case _ => (match y case 0 => 6 case 1 => 4 case 2 => 5 case 3 => 3 case 4 => 2 case _ => 0)
  }

  function t8HB(x: nat, y: nat): nat {
    match x
    case 0 => (match y case 0 => 3 case 1 => 4 case 2 => 6 case 3 => 18 case 4 => 12 case _ => 5)
    case 1 => (match y case 0 => 5 case 1 => 1 case 2 => 2 case 3 => 16 case 4 => 9 case _ => 3)
    case 2 => (match y case 0 => 7 case 1 => 3 case 2 => 5 case 3 => 14 case 4 => 7 case _ => 3)
    case 3 => (match y case 0 => 19 case 1 => 17 case 2 => 15 case 3 => 13 case 4 => 10 case _ => 4)
    case 4 => (match y case 0 => 13 case 1 => 5 case 2 => 8 case 3 => 11 case 4 => 5 case _ => 1)
    case _ => (match y case 0 => 12 case 1 => 4 case 2 => 4 case 3 => 1 case 4 => 1 case _ => 0)
  }

  function t9HB(x: nat, y: nat): nat {
    match x
    case 0 => (match y case 0 => 7 case 1 => 5 case 2 => 9 case 3 => 14 case 4 => 15 case _ => 7)
    case 1 => (match y case 0 => 6 case 1 => 4 case 2 => 5 case 3 => 5 case 4 => 6 case _ => 7)
    case 2 => (match y case 0 => 7 case 1 => 6 case 2 => 8 case 3 => 8 case 4 => 8 case _ => 5)
    case 3 => (match y case 0 => 15 case 1 => 6 case 2 => 9 case 3 => 10 case 4 => 5 case _ => 1)
    case 4 => (match y case 0 => 11 case 1 => 7 case 2 => 9 case 3 => 6 case 4 => 4 case _ => 1)
    case _ => (match y case 0 => 14 case 1 => 4 case 2 => 6 case 3 => 2 case 4 => 6 case _ => 0)
  }

  function t10HB(x: nat, y: nat): nat {
    match x
    case 0 => (match y case 0 => 1 case 1 => 2 case 2 => 10 case 3 => 23 case 4 => 35 case 5 => 30 case 6 => 12
       case _ => 17)
    case 1 => (match y case 0 => 3 case 1 => 3 case 2 => 8 case 3 => 12 case 4 => 18 case 5 => 21 case 6 => 12
       case _ => 7)
    case 2 => (match y case 0 => 11 case 1 => 9 case 2 => 15 case 3 => 21 case 4 => 32 case 5 => 40 case 6 => 19
       case _ => 6)
    case 3 => (match y case 0 => 14 case 1 => 13 case 2 => 22 case 3 => 34 case 4 => 46 case 5 => 23
       case 6 => 18 case _ => 7)
    case 4 => (match y case 0 => 20 case 1 => 19 case 2 => 33 case 3 => 47 case 4 => 27 case 5 => 22 case 6 => 9
       case _ => 3)
    case 5 => (match y case 0 => 31 case 1 => 22 case 2 => 41 case 3 => 26 case 4 => 21 case 5 => 20 case 6 => 5
       case _ => 3)
    case 6 => (match y case 0 => 14 case 1 => 13 case 2 => 10 case 3 => 11 case 4 => 16 case 5 => 6 case 6 => 5
       case _ => 1)
    case _ => (match y case 0 => 9 case 1 => 8 case 2 => 7 case 3 => 8 case 4 => 4 case 5 => 4 case 6 => 2
       case _ => 0)
  }

  function t11HB(x: nat, y: nat): nat {
    match x
    case 0 => (match y case 0 => 3 case 1 => 4 case 2 => 10 case 3 => 24 case 4 => 34 case 5 => 33 case 6 => 21
       case _ => 15)
    case 1 => (match y case 0 => 5 case 1 => 3 case 2 => 4 case 3 => 10 case 4 => 32 case 5 => 17 case 6 => 11
       case _ => 10)
    case 2 => (match y case 0 => 11 case 1 => 7 case 2 => 13 case 3 => 18 case 4 => 30 case 5 => 31 case 6 => 20
       case _ => 5)
    case 3 => (match y case 0 => 25 case 1 => 11 case 2 => 19 case 3 => 59 case 4 => 27 case 5 => 18
       case 6 => 12 case _ => 5)
    case 4 => (match y case 0 => 35 case 1 => 33 case 2 => 31 case 3 => 58 case 4 => 30 case 5 => 16 case 6 => 7
       case _ => 5)
    case 5 => (match y case 0 => 28 case 1 => 26 case 2 => 32 case 3 => 19 case 4 => 17 case 5 => 15 case 6 => 8
       case _ => 14)
    case 6 => (match y case 0 => 14 case 1 => 12 case 2 => 9 case 3 => 13 case 4 => 14 case 5 => 9 case 6 => 4
       case _ => 1)
    case _ => (match y case 0 => 11 case 1 => 4 case 2 => 6 case 3 => 6 case 4 => 6 case 5 => 3 case 6 => 2
       case _ => 0)
  }

  function t12HB(x: nat, y: nat): nat {
    match x
    case 0 => (match y case 0 => 9 case 1 => 6 case 2 => 16 case 3 => 33 case 4 => 41 case 5 => 39 case 6 => 38
       case _ => 26)
    case 1 => (match y case 0 => 7 case 1 => 5 case 2 => 6 case 3 => 9 case 4 => 23 case 5 => 16 case 6 => 26
       case _ => 11)
    case 2 => (match y case 0 => 17 case 1 => 7 case 2 => 11 case 3 => 14 case 4 => 21 case 5 => 30 case 6 => 10
       case _ => 7)
    case 3 => (match y case 0 => 17 case 1 => 10 case 2 => 15 case 3 => 12 case 4 => 18 case 5 => 28
       case 6 => 14 case _ => 5)
    case 4 => (match y case 0 => 32 case 1 => 13 case 2 => 22 case 3 => 19 case 4 => 18 case 5 => 16 case 6 => 9
       case _ => 5)
    case 5 => (match y case 0 => 40 case 1 => 17 case 2 => 31 case 3 => 29 case 4 => 17 case 5 => 13 case 6 => 4
       case _ => 2)
    case 6 => (match y case 0 => 27 case 1 => 12 case 2 => 11 case 3 => 15 case 4 => 10 case 5 => 7 case 6 => 4
       case _ => 1)
    case _ => (match y case 0 => 27 case 1 => 12 case 2 => 8 case 3 => 12 case 4 => 6 case 5 => 3 case 6 => 1
       case _ => 0)
  }

  function t13HB(x: nat, y: nat): nat {
    match x
    case 0 => (match y case 0 => 1 case 1 => 5 case 2 => 14 case 3 => 21 case 4 => 34 case 5 => 51 case 6 => 46
       case 7 => 71 case 8 => 42 case 9 => 52 case 10 => 68 case 11 => 52 case 12 => 67 case 13 => 44
       case 14 => 43 case _ => 19)
    case 1 => (match y case 0 => 3 case 1 => 4 case 2 => 12 case 3 => 19 case 4 => 31 case 5 => 26 case 6 => 44
       case 7 => 33 case 8 => 31 case 9 => 24 case 10 => 32 case 11 => 24 case 12 => 31 case 13 => 35
       case 14 => 22 case _ => 14)
    case 2 => (match y case 0 => 15 case 1 => 13 case 2 => 23 case 3 => 36 case 4 => 59 case 5 => 49
       case 6 => 77 case 7 => 65 case 8 => 29 case 9 => 40 case 10 => 30 case 11 => 40 case 12 => 27
       case 13 => 33 case 14 => 42 case _ => 16)
    case 3 => (match y case 0 => 22 case 1 => 20 case 2 => 37 case 3 => 61 case 4 => 56 case 5 => 79
       case 6 => 73 case 7 => 64 case 8 => 43 case 9 => 76 case 10 => 56 case 11 => 37 case 12 => 26
       case 13 => 31 case 14 => 25 case _ => 14)
    case 4 => (match y case 0 => 35 case 1 => 16 case 2 => 60 case 3 => 57 case 4 => 97 case 5 => 75
       case 6 => 114 case 7 => 91 case 8 => 54 case 9 => 73 case 10 => 55 case 11 => 41 case 12 => 48
       case 13 => 53 case 14 => 23 case _ => 24)
    case 5 => (match y case 0 => 58 case 1 => 27 case 2 => 50 case 3 => 96 case 4 => 76 case 5 => 70
       case 6 => 93 case 7 => 84 case 8 => 77 case 9 => 58 case 10 => 79 case 11 => 29 case 12 => 74
       case 13 => 49 case 14 => 41 case _ => 17)
    case 6 => (match y case 0 => 47 case 1 => 45 case 2 => 78 case 3 => 74 case 4 => 115 case 5 => 94
       case 6 => 90 case 7 => 79 case 8 => 69 case 9 => 83 case 10 => 71 case 11 => 50 case 12 => 59
       case 13 => 38 case 14 => 36 case _ => 15)
    case 7 => (match y case 0 => 72 case 1 => 34 case 2 => 56 case 3 => 95 case 4 => 92 case 5 => 85
       case 6 => 91 case 7 => 90 case 8 => 86 case 9 => 73 case 10 => 77 case 11 => 65 case 12 => 51
       case 13 => 44 case 14 => 43 case _ => 42)
    case 8 => (match y case 0 => 43 case 1 => 20 case 2 => 30 case 3 => 44 case 4 => 55 case 5 => 78
       case 6 => 72 case 7 => 87 case 8 => 78 case 9 => 61 case 10 => 46 case 11 => 54 case 12 => 37
       case 13 => 30 case 14 => 20 case _ => 16)
    case 9 => (match y case 0 => 53 case 1 => 25 case 2 => 41 case 3 => 37 case 4 => 44 case 5 => 59
       case 6 => 54 case 7 => 81 case 8 => 66 case 9 => 76 case 10 => 57 case 11 => 54 case 12 => 37
       case 13 => 18 case 14 => 39 case _ => 11)
    case 10 => (match y case 0 => 35 case 1 => 33 case 2 => 31 case 3 => 57 case 4 => 42 case 5 => 82
       case 6 => 72 case 7 => 80 case 8 => 47 case 9 => 58 case 10 => 55 case 11 => 21 case 12 => 22
       case 13 => 26 case 14 => 38 case _ => 22)
    case 11 => (match y case 0 => 53 case 1 => 25 case 2 => 23 case 3 => 38 case 4 => 70 case 5 => 60
       case 6 => 51 case 7 => 36 case 8 => 55 case 9 => 26 case 10 => 34 case 11 => 23 case 12 => 27
       case 13 => 14 case 14 => 9 case _ => 7)
    case 12 => (match y case 0 => 34 case 1 => 32 case 2 => 28 case 3 => 39 case 4 => 49 case 5 => 75
       case 6 => 30 case 7 => 52 case 8 => 48 case 9 => 40 case 10 => 52 case 11 => 28 case 12 => 18
       case 13 => 17 case 14 => 9 case _ => 5)
    case 13 => (match y case 0 => 45 case 1 => 21 case 2 => 34 case 3 => 64 case 4 => 56 case 5 => 50
       case 6 => 49 case 7 => 45 case 8 => 31 case 9 => 19 case 10 => 12 case 11 => 15 case 12 => 10
       case 13 => 7 case 14 => 6 case _ => 3)
    case 14 => (match y case 0 => 48 case 1 => 23 case 2 => 20 case 3 => 39 case 4 => 36 case 5 => 35
       case 6 => 53 case 7 => 21 case 8 => 16 case 9 => 23 case 10 => 13 case 11 => 10 case 12 => 6 case 13 => 1
       case 14 => 4 case _ => 2)
    case _ => (match y case 0 => 16 case 1 => 15 case 2 => 17 case 3 => 27 case 4 => 25 case 5 => 20
       case 6 => 29 case 7 => 11 case 8 => 17 case 9 => 12 case 10 => 16 case 11 => 8 case 12 => 1 case 13 => 1
       case 14 => 0 case _ => 1)
  }

  function t15HB(x: nat, y: nat): nat {
    match x
    case 0 => (match y case 0 => 7 case 1 => 12 case 2 => 18 case 3 => 53 case 4 => 47 case 5 => 76
       case 6 => 124 case 7 => 108 case 8 => 89 case 9 => 123 case 10 => 108 case 11 => 119 case 12 => 107
       case 13 => 81 case 14 => 122 case _ => 63)
    case 1 => (match y case 0 => 13 case 1 => 5 case 2 => 16 case 3 => 27 case 4 => 46 case 5 => 36 case 6 => 61
       case 7 => 51 case 8 => 42 case 9 => 70 case 10 => 52 case 11 => 83 case 12 => 65 case 13 => 41
       case 14 => 59 case _ => 36)
    case 2 => (match y case 0 => 19 case 1 => 17 case 2 => 15 case 3 => 24 case 4 => 41 case 5 => 34
       case 6 => 59 case 7 => 48 case 8 => 40 case 9 => 64 case 10 => 50 case 11 => 78 case 12 => 62
       case 13 => 80 case 14 => 56 case _ => 33)
    case 3 => (match y case 0 => 29 case 1 => 28 case 2 => 25 case 3 => 43 case 4 => 39 case 5 => 63
       case 6 => 55 case 7 => 93 case 8 => 76 case 9 => 59 case 10 => 93 case 11 => 72 case 12 => 54
       case 13 => 75 case 14 => 50 case _ => 29)
    case 4 => (match y case 0 => 52 case 1 => 22 case 2 => 42 case 3 => 40 case 4 => 67 case 5 => 57
       case 6 => 95 case 7 => 79 case 8 => 72 case 9 => 57 case 10 => 89 case 11 => 69 case 12 => 49
       case 13 => 66 case 14 => 46 case _ => 27)
    case 5 => (match y case 0 => 77 case 1 => 37 case 2 => 35 case 3 => 66 case 4 => 58 case 5 => 52
       case 6 => 91 case 7 => 74 case 8 => 62 case 9 => 48 case 10 => 79 case 11 => 63 case 12 => 90
       case 13 => 62 case 14 => 40 case _ => 38)
    case 6 => (match y case 0 => 125 case 1 => 32 case 2 => 60 case 3 => 56 case 4 => 50 case 5 => 92
       case 6 => 78 case 7 => 65 case 8 => 55 case 9 => 87 case 10 => 71 case 11 => 51 case 12 => 73
       case 13 => 51 case 14 => 70 case _ => 30)
    case 7 => (match y case 0 => 109 case 1 => 53 case 2 => 49 case 3 => 94 case 4 => 88 case 5 => 75
       case 6 => 66 case 7 => 122 case 8 => 91 case 9 => 73 case 10 => 56 case 11 => 42 case 12 => 64
       case 13 => 44 case 14 => 21 case _ => 25)
    case 8 => (match y case 0 => 90 case 1 => 43 case 2 => 41 case 3 => 77 case 4 => 73 case 5 => 63
       case 6 => 56 case 7 => 92 case 8 => 77 case 9 => 66 case 10 => 47 case 11 => 67 case 12 => 48
       case 13 => 53 case 14 => 36 case _ => 20)
    case 9 => (match y case 0 => 71 case 1 => 34 case 2 => 67 case 3 => 60 case 4 => 58 case 5 => 49
       case 6 => 88 case 7 => 76 case 8 => 67 case 9 => 106 case 10 => 71 case 11 => 54 case 12 => 38
       case 13 => 39 case 14 => 23 case _ => 15)
    case 10 => (match y case 0 => 109 case 1 => 53 case 2 => 51 case 3 => 47 case 4 => 90 case 5 => 82
       case 6 => 58 case 7 => 57 case 8 => 48 case 9 => 72 case 10 => 57 case 11 => 41 case 12 => 23
       case 13 => 27 case 14 => 62 case _ => 9)
    case 11 => (match y case 0 => 86 case 1 => 42 case 2 => 40 case 3 => 37 case 4 => 70 case 5 => 64
       case 6 => 52 case 7 => 43 case 8 => 70 case 9 => 55 case 10 => 42 case 11 => 25 case 12 => 29
       case 13 => 18 case 14 => 11 case _ => 11)
    case 12 => (match y case 0 => 118 case 1 => 68 case 2 => 30 case 3 => 55 case 4 => 50 case 5 => 46
       case 6 => 74 case 7 => 65 case 8 => 49 case 9 => 39 case 10 => 24 case 11 => 16 case 12 => 22
       case 13 => 13 case 14 => 14 case _ => 7)
    case 13 => (match y case 0 => 91 case 1 => 44 case 2 => 39 case 3 => 38 case 4 => 34 case 5 => 63
       case 6 => 52 case 7 => 45 case 8 => 31 case 9 => 52 case 10 => 28 case 11 => 19 case 12 => 14
       case 13 => 8 case 14 => 9 case _ => 3)
    case 14 => (match y case 0 => 123 case 1 => 60 case 2 => 58 case 3 => 53 case 4 => 47 case 5 => 43
       case 6 => 32 case 7 => 22 case 8 => 37 case 9 => 24 case 10 => 17 case 11 => 12 case 12 => 15
       case 13 => 10 case 14 => 2 case _ => 1)
    case _ => (match y case 0 => 71 case 1 => 37 case 2 => 34 case 3 => 30 case 4 => 28 case 5 => 20
       case 6 => 17 case 7 => 26 case 8 => 21 case 9 => 16 case 10 => 10 case 11 => 6 case 12 => 8 case 13 => 6
       case 14 => 2 case _ => 0)
  }

  function t16HB(x: nat, y: nat): nat {
    match x
    case 0 => (match y case 0 => 1 case 1 => 5 case 2 => 14 case 3 => 44 case 4 => 74 case 5 => 63 case 6 => 110
       case 7 => 93 case 8 => 172 case 9 => 149 case 10 => 138 case 11 => 242 case 12 => 225 case 13 => 195
       case 14 => 376 case _ => 17)
    case 1 => (match y case 0 => 3 case 1 => 4 case 2 => 12 case 3 => 20 case 4 => 35 case 5 => 62 case 6 => 53
       case 7 => 47 case 8 => 83 case 9 => 75 case 10 => 68 case 11 => 119 case 12 => 201 case 13 => 107
       case 14 => 207 case _ => 9)
    case 2 => (match y case 0 => 15 case 1 => 13 case 2 => 23 case 3 => 38 case 4 => 67 case 5 => 58
       case 6 => 103 case 7 => 90 case 8 => 161 case 9 => 72 case 10 => 127 case 11 => 117 case 12 => 110
       case 13 => 209 case 14 => 206 case _ => 16)
    case 3 => (match y case 0 => 45 case 1 => 21 case 2 => 39 case 3 => 69 case 4 => 64 case 5 => 114
       case 6 => 99 case 7 => 87 case 8 => 158 case 9 => 140 case 10 => 252 case 11 => 212 case 12 => 199
       case 13 => 387 case 14 => 365 case _ => 26)
    case 4 => (match y case 0 => 75 case 1 => 36 case 2 => 68 case 3 => 65 case 4 => 115 case 5 => 101
       case 6 => 179 case 7 => 164 case 8 => 155 case 9 => 264 case 10 => 246 case 11 => 226 case 12 => 395
       case 13 => 382 case 14 => 362 case _ => 9)
    case 5 => (match y case 0 => 66 case 1 => 30 case 2 => 59 case 3 => 56 case 4 => 102 case 5 => 185
       case 6 => 173 case 7 => 265 case 8 => 142 case 9 => 253 case 10 => 232 case 11 => 400 case 12 => 388
       case 13 => 378 case 14 => 445 case _ => 16)
    case 6 => (match y case 0 => 111 case 1 => 54 case 2 => 52 case 3 => 100 case 4 => 184 case 5 => 178
       case 6 => 160 case 7 => 133 case 8 => 257 case 9 => 244 case 10 => 228 case 11 => 217 case 12 => 385
       case 13 => 366 case 14 => 715 case _ => 10)
    case 7 => (match y case 0 => 98 case 1 => 48 case 2 => 91 case 3 => 88 case 4 => 165 case 5 => 157
       case 6 => 148 case 7 => 261 case 8 => 248 case 9 => 407 case 10 => 397 case 11 => 372 case 12 => 380
       case 13 => 889 case 14 => 884 case _ => 8)
    case 8 => (match y case 0 => 85 case 1 => 84 case 2 => 81 case 3 => 159 case 4 => 156 case 5 => 143
       case 6 => 260 case 7 => 249 case 8 => 427 case 9 => 401 case 10 => 392 case 11 => 383 case 12 => 727
       case 13 => 713 case 14 => 708 case _ => 7)
    case 9 => (match y case 0 => 154 case 1 => 76 case 2 => 73 case 3 => 141 case 4 => 131 case 5 => 256
       case 6 => 245 case 7 => 426 case 8 => 406 case 9 => 394 case 10 => 384 case 11 => 735 case 12 => 359
       case 13 => 710 case 14 => 352 case _ => 11)
    case 10 => (match y case 0 => 139 case 1 => 129 case 2 => 67 case 3 => 125 case 4 => 247 case 5 => 233
       case 6 => 229 case 7 => 219 case 8 => 393 case 9 => 743 case 10 => 737 case 11 => 720 case 12 => 885
       case 13 => 882 case 14 => 439 case _ => 4)
    case 11 => (match y case 0 => 243 case 1 => 120 case 2 => 118 case 3 => 115 case 4 => 227 case 5 => 223
       case 6 => 396 case 7 => 746 case 8 => 742 case 9 => 736 case 10 => 721 case 11 => 712 case 12 => 706
       case 13 => 223 case 14 => 436 case _ => 6)
    case 12 => (match y case 0 => 202 case 1 => 224 case 2 => 222 case 3 => 218 case 4 => 216 case 5 => 389
       case 6 => 386 case 7 => 381 case 8 => 364 case 9 => 888 case 10 => 443 case 11 => 707 case 12 => 440
       case 13 => 437 case 14 => 1728 case _ => 4)
    case 13 => (match y case 0 => 747 case 1 => 211 case 2 => 210 case 3 => 208 case 4 => 370 case 5 => 379
       case 6 => 734 case 7 => 723 case 8 => 714 case 9 => 1735 case 10 => 883 case 11 => 877 case 12 => 876
       case 13 => 3459 case 14 => 865 case _ => 2)
    case 14 => (match y case 0 => 377 case 1 => 369 case 2 => 102 case 3 => 187 case 4 => 726 case 5 => 722
       case 6 => 358 case 7 => 711 case 8 => 709 case 9 => 866 case 10 => 1734 case 11 => 871 case 12 => 3458
       case 13 => 870 case 14 => 434 case _ => 0)
    case _ => (match y case 0 => 12 case 1 => 10 case 2 => 7 case 3 => 11 case 4 => 10 case 5 => 17 case 6 => 11
       case 7 => 9 case 8 => 13 case 9 => 12 case 10 => 10 case 11 => 7 case 12 => 5 case 13 => 3 case 14 => 1
       case _ => 3)
  }

  function t24HB(x: nat, y: nat): nat {
    match x
    case 0 => (match y case 0 => 15 case 1 => 13 case 2 => 46 case 3 => 80 case 4 => 146 case 5 => 262
       case 6 => 248 case 7 => 434 case 8 => 426 case 9 => 669 case 10 => 653 case 11 => 649 case 12 => 621
       case 13 => 517 case 14 => 1032 case _ => 88)
    case 1 => (match y case 0 => 14 case 1 => 12 case 2 => 21 case 3 => 38 case 4 => 71 case 5 => 130
       case 6 => 122 case 7 => 216 case 8 => 209 case 9 => 198 case 10 => 327 case 11 => 345 case 12 => 319
       case 13 => 297 case 14 => 279 case _ => 42)
    case 2 => (match y case 0 => 47 case 1 => 22 case 2 => 41 case 3 => 74 case 4 => 68 case 5 => 128
       case 6 => 120 case 7 => 221 case 8 => 207 case 9 => 194 case 10 => 182 case 11 => 340 case 12 => 315
       case 13 => 295 case 14 => 541 case _ => 18)
    case 3 => (match y case 0 => 81 case 1 => 39 case 2 => 75 case 3 => 70 case 4 => 134 case 5 => 125
       case 6 => 116 case 7 => 220 case 8 => 204 case 9 => 190 case 10 => 178 case 11 => 325 case 12 => 311
       case 13 => 293 case 14 => 271 case _ => 16)
    case 4 => (match y case 0 => 147 case 1 => 72 case 2 => 69 case 3 => 135 case 4 => 127 case 5 => 118
       case 6 => 112 case 7 => 210 case 8 => 200 case 9 => 188 case 10 => 352 case 11 => 323 case 12 => 306
       case 13 => 285 case 14 => 540 case _ => 14)
    case 5 => (match y case 0 => 263 case 1 => 66 case 2 => 129 case 3 => 126 case 4 => 119 case 5 => 114
       case 6 => 214 case 7 => 202 case 8 => 192 case 9 => 180 case 10 => 341 case 11 => 317 case 12 => 301
       case 13 => 281 case 14 => 262 case _ => 12)
    case 6 => (match y case 0 => 249 case 1 => 123 case 2 => 121 case 3 => 117 case 4 => 113 case 5 => 215
       case 6 => 206 case 7 => 195 case 8 => 185 case 9 => 347 case 10 => 330 case 11 => 308 case 12 => 291
       case 13 => 272 case 14 => 520 case _ => 10)
    case 7 => (match y case 0 => 435 case 1 => 115 case 2 => 111 case 3 => 109 case 4 => 211 case 5 => 203
       case 6 => 196 case 7 => 187 case 8 => 353 case 9 => 332 case 10 => 313 case 11 => 298 case 12 => 283
       case 13 => 531 case 14 => 381 case _ => 17)
    case 8 => (match y case 0 => 427 case 1 => 212 case 2 => 208 case 3 => 205 case 4 => 201 case 5 => 193
       case 6 => 186 case 7 => 177 case 8 => 169 case 9 => 320 case 10 => 303 case 11 => 286 case 12 => 268
       case 13 => 514 case 14 => 377 case _ => 16)
    case 9 => (match y case 0 => 335 case 1 => 199 case 2 => 197 case 3 => 191 case 4 => 189 case 5 => 181
       case 6 => 174 case 7 => 333 case 8 => 321 case 9 => 305 case 10 => 289 case 11 => 275 case 12 => 521
       case 13 => 379 case 14 => 371 case _ => 11)
    case 10 => (match y case 0 => 668 case 1 => 184 case 2 => 183 case 3 => 179 case 4 => 175 case 5 => 344
       case 6 => 331 case 7 => 314 case 8 => 304 case 9 => 290 case 10 => 277 case 11 => 530 case 12 => 383
       case 13 => 373 case 14 => 366 case _ => 10)
    case 11 => (match y case 0 => 652 case 1 => 346 case 2 => 171 case 3 => 168 case 4 => 164 case 5 => 318
       case 6 => 309 case 7 => 299 case 8 => 287 case 9 => 276 case 10 => 263 case 11 => 513 case 12 => 375
       case 13 => 368 case 14 => 362 case _ => 6)
    case 12 => (match y case 0 => 648 case 1 => 322 case 2 => 316 case 3 => 312 case 4 => 307 case 5 => 302
       case 6 => 292 case 7 => 284 case 8 => 269 case 9 => 261 case 10 => 512 case 11 => 376 case 12 => 370
       case 13 => 364 case 14 => 359 case _ => 4)
    case 13 => (match y case 0 => 620 case 1 => 300 case 2 => 296 case 3 => 294 case 4 => 288 case 5 => 282
       case 6 => 273 case 7 => 266 case 8 => 515 case 9 => 380 case 10 => 374 case 11 => 369 case 12 => 365
       case 13 => 361 case 14 => 357 case _ => 2)
    case 14 => (match y case 0 => 1033 case 1 => 280 case 2 => 278 case 3 => 274 case 4 => 267 case 5 => 264
       case 6 => 259 case 7 => 382 case 8 => 378 case 9 => 372 case 10 => 367 case 11 => 363 case 12 => 360
       case 13 => 358 case 14 => 356 case _ => 0)
    case _ => (match y case 0 => 43 case 1 => 20 case 2 => 19 case 3 => 17 case 4 => 15 case 5 => 13
       case 6 => 11 case 7 => 9 case 8 => 7 case 9 => 6 case 10 => 4 case 11 => 7 case 12 => 5 case 13 => 3
       case 14 => 1 case _ => 3)
  }

  function t32HB(x: nat, y: nat): nat {
    match x
    case 0 => (match y case 0 => 1 case 1 => 10 case 2 => 8 case _ => 20)
    case 1 => (match y case 0 => 12 case 1 => 20 case 2 => 16 case _ => 32)
    case 2 => (match y case 0 => 14 case 1 => 12 case 2 => 24 case _ => 0)
    case _ => (match y case 0 => 28 case 1 => 16 case 2 => 24 case _ => 16)
  }

  function t33HB(x: nat, y: nat): nat {
    match x
    case 0 => (match y case 0 => 15 case 1 => 28 case 2 => 26 case _ => 48)
    case 1 => (match y case 0 => 22 case 1 => 40 case 2 => 36 case _ => 64)
    case 2 => (match y case 0 => 14 case 1 => 24 case 2 => 20 case _ => 32)
    case _ => (match y case 0 => 12 case 1 => 16 case 2 => 8 case _ => 0)
  }

  function t1l(x: nat, y: nat): nat {
    match x
    case 0 => (match y case 0 => 1 case _ => 4)
    case _ => (match y case 0 => 3 case _ => 5)
  }

  function t2l(x: nat, y: nat): nat {
    match x
    case 0 => (match y case 0 => 1 case 1 => 4 case _ => 7)
    case 1 => (match y case 0 => 4 case 1 => 5 case _ => 7)
    case _ => (match y case 0 => 6 case 1 => 7 case _ => 8)
  }

  function t3l(x: nat, y: nat): nat {
    match x
    case 0 => (match y case 0 => 2 case 1 => 3 case _ => 7)
    case 1 => (match y case 0 => 4 case 1 => 4 case _ => 7)
    case _ => (match y case 0 => 6 case 1 => 7 case _ => 8)
  }

  function t5l(x: nat, y: nat): nat {
    match x
    case 0 => (match y case 0 => 1 case 1 => 4 case 2 => 7 case _ => 8)
    case 1 => (match y case 0 => 4 case 1 => 5 case 2 => 8 case _ => 9)
    case 2 => (match y case 0 => 7 case 1 => 8 case 2 => 9 case _ => 10)
    case _ => (match y case 0 => 8 case 1 => 8 case 2 => 9 case _ => 10)
  }

  function t6l(x: nat, y: nat): nat {
    match x
    case 0 => (match y case 0 => 3 case 1 => 4 case 2 => 6 case _ => 8)
    case 1 => (match y case 0 => 4 case 1 => 4 case 2 => 6 case _ => 7)
    case 2 => (match y case 0 => 5 case 1 => 6 case 2 => 7 case _ => 8)
    case _ => (match y case 0 => 7 case 1 => 7 case 2 => 8 case _ => 9)
  }

  function t7l(x: nat, y: nat): nat {
    match x
    case 0 => (match y case 0 => 1 case 1 => 4 case 2 => 7 case 3 => 9 case 4 => 9 case _ => 10)
    case 1 => (match y case 0 => 4 case 1 => 6 case 2 => 8 case 3 => 9 case 4 => 9 case _ => 10)
    case 2 => (match y case 0 => 7 case 1 => 7 case 2 => 9 case 3 => 10 case 4 => 10 case _ => 11)
    case 3 => (match y case 0 => 8 case 1 => 9 case 2 => 10 case 3 => 11 case 4 => 11 case _ => 11)
    case 4 => (match y case 0 => 8 case 1 => 9 case 2 => 10 case 3 => 11 case 4 => 11 case _ => 12)
    case _ => (match y case 0 => 9 case 1 => 10 case 2 => 11 case 3 => 12 case 4 => 12 case _ => 12)
  }

  function t8l(x: nat, y: nat): nat {
    match x
    case 0 => (match y case 0 => 2 case 1 => 4 case 2 => 7 case 3 => 9 case 4 => 9 case _ => 10)
    case 1 => (match y case 0 => 4 case 1 => 4 case 2 => 6 case 3 => 10 case 4 => 10 case _ => 10)
    case 2 => (match y case 0 => 7 case 1 => 6 case 2 => 8 case 3 => 10 case 4 => 10 case _ => 11)
    case 3 => (match y case 0 => 9 case 1 => 10 case 2 => 10 case 3 => 11 case 4 => 11 case _ => 12)
    case 4 => (match y case 0 => 9 case 1 => 9 case 2 => 10 case 3 => 11 case 4 => 12 case _ => 12)
    case _ => (match y case 0 => 10 case 1 => 10 case 2 => 11 case 3 => 11 case 4 => 13 case _ => 13)
  }

  function t9l(x: nat, y: nat): nat {
    match x
    case 0 => (match y case 0 => 3 case 1 => 4 case 2 => 6 case 3 => 7 case 4 => 9 case _ => 10)
    case 1 => (match y case 0 => 4 case 1 => 5 case 2 => 6 case 3 => 7 case 4 => 8 case _ => 10)
    case 2 => (match y case 0 => 5 case 1 => 6 case 2 => 7 case 3 => 8 case 4 => 9 case _ => 10)
    case 3 => (match y case 0 => 7 case 1 => 7 case 2 => 8 case 3 => 9 case 4 => 9 case _ => 10)
    case 4 => (match y case 0 => 8 case 1 => 8 case 2 => 9 case 3 => 9 case 4 => 10 case _ => 11)
    case _ => (match y case 0 => 9 case 1 => 9 case 2 => 10 case 3 => 10 case 4 => 11 case _ => 11)
  }

  function t10l(x: nat, y: nat): nat {
    match x
    case 0 => (match y case 0 => 1 case 1 => 4 case 2 => 7 case 3 => 9 case 4 => 10 case 5 => 10 case 6 => 10
       case _ => 11)
    case 1 => (match y case 0 => 4 case 1 => 6 case 2 => 8 case 3 => 9 case 4 => 10 case 5 => 11 case 6 => 10
       case _ => 10)
    case 2 => (match y case 0 => 7 case 1 => 8 case 2 => 9 case 3 => 10 case 4 => 11 case 5 => 12 case 6 => 11
       case _ => 11)
    case 3 => (match y case 0 => 8 case 1 => 9 case 2 => 10 case 3 => 11 case 4 => 12 case 5 => 12 case 6 => 11
       case _ => 12)
    case 4 => (match y case 0 => 9 case 1 => 10 case 2 => 11 case 3 => 12 case 4 => 12 case 5 => 12 case 6 => 12
       case _ => 12)
    case 5 => (match y case 0 => 10 case 1 => 11 case 2 => 12 case 3 => 12 case 4 => 13 case 5 => 13
       case 6 => 12 case _ => 13)
    case 6 => (match y case 0 => 9 case 1 => 10 case 2 => 11 case 3 => 12 case 4 => 12 case 5 => 12 case 6 => 13
       case _ => 13)
    case _ => (match y case 0 => 10 case 1 => 10 case 2 => 11 case 3 => 12 case 4 => 12 case 5 => 13
       case 6 => 13 case _ => 13)
  }

  function t11l(x: nat, y: nat): nat {
    match x
    case 0 => (match y case 0 => 2 case 1 => 4 case 2 => 6 case 3 => 8 case 4 => 9 case 5 => 10 case 6 => 9
       case _ => 10)
    case 1 => (match y case 0 => 4 case 1 => 5 case 2 => 6 case 3 => 8 case 4 => 10 case 5 => 10 case 6 => 9
       case _ => 10)
    case 2 => (match y case 0 => 6 case 1 => 7 case 2 => 8 case 3 => 9 case 4 => 10 case 5 => 11 case 6 => 10
       case _ => 10)
    case 3 => (match y case 0 => 8 case 1 => 8 case 2 => 9 case 3 => 11 case 4 => 10 case 5 => 12 case 6 => 10
       case _ => 11)
    case 4 => (match y case 0 => 9 case 1 => 10 case 2 => 10 case 3 => 11 case 4 => 11 case 5 => 12 case 6 => 11
       case _ => 12)
    case 5 => (match y case 0 => 9 case 1 => 10 case 2 => 11 case 3 => 12 case 4 => 12 case 5 => 13 case 6 => 12
       case _ => 13)
    case 6 => (match y case 0 => 9 case 1 => 9 case 2 => 9 case 3 => 10 case 4 => 11 case 5 => 12 case 6 => 12
       case _ => 12)
    case _ => (match y case 0 => 9 case 1 => 9 case 2 => 10 case 3 => 11 case 4 => 12 case 5 => 12 case 6 => 12
       case _ => 12)
  }

  function t12l(x: nat, y: nat): nat {
    match x
    case 0 => (match y case 0 => 4 case 1 => 4 case 2 => 6 case 3 => 8 case 4 => 9 case 5 => 10 case 6 => 10
       case _ => 10)
    case 1 => (match y case 0 => 4 case 1 => 5 case 2 => 6 case 3 => 7 case 4 => 9 case 5 => 9 case 6 => 10
       case _ => 10)
    case 2 => (match y case 0 => 6 case 1 => 6 case 2 => 7 case 3 => 8 case 4 => 9 case 5 => 10 case 6 => 9
       case _ => 10)
    case 3 => (match y case 0 => 7 case 1 => 7 case 2 => 8 case 3 => 8 case 4 => 9 case 5 => 10 case 6 => 10
       case _ => 10)
    case 4 => (match y case 0 => 8 case 1 => 8 case 2 => 9 case 3 => 9 case 4 => 10 case 5 => 10 case 6 => 10
       case _ => 11)
    case 5 => (match y case 0 => 9 case 1 => 9 case 2 => 10 case 3 => 10 case 4 => 10 case 5 => 11 case 6 => 10
       case _ => 11)
    case 6 => (match y case 0 => 9 case 1 => 9 case 2 => 9 case 3 => 10 case 4 => 10 case 5 => 11 case 6 => 11
       case _ => 12)
    case _ => (match y case 0 => 10 case 1 => 10 case 2 => 10 case 3 => 11 case 4 => 11 case 5 => 11
       case 6 => 11 case _ => 12)
  }

  function t13l(x: nat, y: nat): nat {
    match x
    case 0 => (match y case 0 => 1 case 1 => 5 case 2 => 7 case 3 => 8 case 4 => 9 case 5 => 10 case 6 => 10
       case 7 => 11 case 8 => 10 case 9 => 11 case 10 => 12 case 11 => 12 case 12 => 13 case 13 => 13
       case 14 => 14 case _ => 14)
    case 1 => (match y case 0 => 4 case 1 => 6 case 2 => 8 case 3 => 9 case 4 => 10 case 5 => 10 case 6 => 11
       case 7 => 11 case 8 => 11 case 9 => 11 case 10 => 12 case 11 => 12 case 12 => 13 case 13 => 14
       case 14 => 14 case _ => 14)
    case 2 => (match y case 0 => 7 case 1 => 8 case 2 => 9 case 3 => 10 case 4 => 11 case 5 => 11 case 6 => 12
       case 7 => 12 case 8 => 11 case 9 => 12 case 10 => 12 case 11 => 13 case 12 => 13 case 13 => 14
       case 14 => 15 case _ => 15)
    case 3 => (match y case 0 => 8 case 1 => 9 case 2 => 10 case 3 => 11 case 4 => 11 case 5 => 12 case 6 => 12
       case 7 => 12 case 8 => 12 case 9 => 13 case 10 => 13 case 11 => 13 case 12 => 13 case 13 => 14
       case 14 => 15 case _ => 15)
    case 4 => (match y case 0 => 9 case 1 => 9 case 2 => 11 case 3 => 11 case 4 => 12 case 5 => 12 case 6 => 13
       case 7 => 13 case 8 => 12 case 9 => 13 case 10 => 13 case 11 => 14 case 12 => 14 case 13 => 15
       case 14 => 15 case _ => 16)
    case 5 => (match y case 0 => 10 case 1 => 10 case 2 => 11 case 3 => 12 case 4 => 12 case 5 => 12
       case 6 => 13 case 7 => 13 case 8 => 13 case 9 => 13 case 10 => 14 case 11 => 13 case 12 => 15
       case 13 => 15 case 14 => 16 case _ => 16)
    case 6 => (match y case 0 => 10 case 1 => 11 case 2 => 12 case 3 => 12 case 4 => 13 case 5 => 13
       case 6 => 13 case 7 => 13 case 8 => 13 case 9 => 14 case 10 => 14 case 11 => 14 case 12 => 15
       case 13 => 15 case 14 => 16 case _ => 16)
    case 7 => (match y case 0 => 11 case 1 => 11 case 2 => 12 case 3 => 13 case 4 => 13 case 5 => 13
       case 6 => 14 case 7 => 14 case 8 => 14 case 9 => 14 case 10 => 15 case 11 => 15 case 12 => 15
       case 13 => 16 case 14 => 18 case _ => 18)
    case 8 => (match y case 0 => 10 case 1 => 10 case 2 => 11 case 3 => 12 case 4 => 12 case 5 => 13
       case 6 => 13 case 7 => 14 case 8 => 14 case 9 => 14 case 10 => 14 case 11 => 15 case 12 => 15
       case 13 => 16 case 14 => 17 case _ => 17)
    case 9 => (match y case 0 => 11 case 1 => 11 case 2 => 12 case 3 => 12 case 4 => 13 case 5 => 13
       case 6 => 13 case 7 => 15 case 8 => 14 case 9 => 15 case 10 => 15 case 11 => 16 case 12 => 16
       case 13 => 16 case 14 => 18 case _ => 17)
    case 10 => (match y case 0 => 11 case 1 => 12 case 2 => 12 case 3 => 13 case 4 => 13 case 5 => 14
       case 6 => 14 case 7 => 15 case 8 => 14 case 9 => 15 case 10 => 16 case 11 => 15 case 12 => 16
       case 13 => 17 case 14 => 18 case _ => 19)
    case 11 => (match y case 0 => 12 case 1 => 12 case 2 => 12 case 3 => 13 case 4 => 14 case 5 => 14
       case 6 => 14 case 7 => 14 case 8 => 15 case 9 => 15 case 10 => 15 case 11 => 16 case 12 => 17
       case 13 => 17 case 14 => 17 case _ => 18)
    case 12 => (match y case 0 => 12 case 1 => 13 case 2 => 13 case 3 => 14 case 4 => 14 case 5 => 15
       case 6 => 14 case 7 => 15 case 8 => 16 case 9 => 16 case 10 => 17 case 11 => 17 case 12 => 17
       case 13 => 18 case 14 => 18 case _ => 18)
    case 13 => (match y case 0 => 13 case 1 => 13 case 2 => 14 case 3 => 15 case 4 => 15 case 5 => 15
       case 6 => 16 case 7 => 16 case 8 => 16 case 9 => 16 case 10 => 16 case 11 => 17 case 12 => 18
       case 13 => 17 case 14 => 18 case _ => 18)
    case 14 => (match y case 0 => 14 case 1 => 14 case 2 => 14 case 3 => 15 case 4 => 15 case 5 => 15
       case 6 => 17 case 7 => 16 case 8 => 16 case 9 => 19 case 10 => 17 case 11 => 17 case 12 => 17
       case 13 => 19 case 14 => 18 case _ => 18)
    case _ => (match y case 0 => 13 case 1 => 14 case 2 => 15 case 3 => 16 case 4 => 16 case 5 => 16
       case 6 => 17 case 7 => 16 case 8 => 17 case 9 => 17 case 10 => 18 case 11 => 18 case 12 => 21
       case 13 => 20 case 14 => 21 case _ => 18)
  }

  function t15l(x: nat, y: nat): nat {
    match x
    case 0 => (match y case 0 => 3 case 1 => 5 case 2 => 6 case 3 => 8 case 4 => 8 case 5 => 9 case 6 => 10
       case 7 => 10 case 8 => 10 case 9 => 11 case 10 => 11 case 11 => 12 case 12 => 12 case 13 => 12
       case 14 => 13 case _ => 14)
    case 1 => (match y case 0 => 5 case 1 => 5 case 2 => 7 case 3 => 8 case 4 => 9 case 5 => 9 case 6 => 10
       case 7 => 10 case 8 => 10 case 9 => 11 case 10 => 11 case 11 => 12 case 12 => 12 case 13 => 12
       case 14 => 13 case _ => 13)
    case 2 => (match y case 0 => 6 case 1 => 7 case 2 => 7 case 3 => 8 case 4 => 9 case 5 => 9 case 6 => 10
       case 7 => 10 case 8 => 10 case 9 => 11 case 10 => 11 case 11 => 12 case 12 => 12 case 13 => 13
       case 14 => 13 case _ => 13)
    case 3 => (match y case 0 => 7 case 1 => 8 case 2 => 8 case 3 => 9 case 4 => 9 case 5 => 10 case 6 => 10
       case 7 => 11 case 8 => 11 case 9 => 11 case 10 => 12 case 11 => 12 case 12 => 12 case 13 => 13
       case 14 => 13 case _ => 13)
    case 4 => (match y case 0 => 8 case 1 => 8 case 2 => 9 case 3 => 9 case 4 => 10 case 5 => 10 case 6 => 11
       case 7 => 11 case 8 => 11 case 9 => 11 case 10 => 12 case 11 => 12 case 12 => 12 case 13 => 13
       case 14 => 13 case _ => 13)
    case 5 => (match y case 0 => 9 case 1 => 9 case 2 => 9 case 3 => 10 case 4 => 10 case 5 => 10 case 6 => 11
       case 7 => 11 case 8 => 11 case 9 => 11 case 10 => 12 case 11 => 12 case 12 => 13 case 13 => 13
       case 14 => 13 case _ => 14)
    case 6 => (match y case 0 => 10 case 1 => 9 case 2 => 10 case 3 => 10 case 4 => 10 case 5 => 11 case 6 => 11
       case 7 => 11 case 8 => 11 case 9 => 12 case 10 => 12 case 11 => 12 case 12 => 13 case 13 => 13
       case 14 => 14 case _ => 14)
    case 7 => (match y case 0 => 10 case 1 => 10 case 2 => 10 case 3 => 11 case 4 => 11 case 5 => 11
       case 6 => 11 case 7 => 12 case 8 => 12 case 9 => 12 case 10 => 12 case 11 => 12 case 12 => 13
       case 13 => 13 case 14 => 13 case _ => 14)
    case 8 => (match y case 0 => 10 case 1 => 10 case 2 => 10 case 3 => 11 case 4 => 11 case 5 => 11
       case 6 => 11 case 7 => 12 case 8 => 12 case 9 => 12 case 10 => 12 case 11 => 13 case 12 => 13
       case 13 => 14 case 14 => 14 case _ => 14)
    case 9 => (match y case 0 => 10 case 1 => 10 case 2 => 11 case 3 => 11 case 4 => 11 case 5 => 11
       case 6 => 12 case 7 => 12 case 8 => 12 case 9 => 13 case 10 => 13 case 11 => 13 case 12 => 13
       case 13 => 14 case 14 => 14 case _ => 14)
    case 10 => (match y case 0 => 11 case 1 => 11 case 2 => 11 case 3 => 11 case 4 => 12 case 5 => 12
       case 6 => 12 case 7 => 12 case 8 => 12 case 9 => 13 case 10 => 13 case 11 => 13 case 12 => 13
       case 13 => 14 case 14 => 15 case _ => 14)
    case 11 => (match y case 0 => 11 case 1 => 11 case 2 => 11 case 3 => 11 case 4 => 12 case 5 => 12
       case 6 => 12 case 7 => 12 case 8 => 13 case 9 => 13 case 10 => 13 case 11 => 13 case 12 => 14
       case 13 => 14 case 14 => 14 case _ => 15)
    case 12 => (match y case 0 => 12 case 1 => 12 case 2 => 11 case 3 => 12 case 4 => 12 case 5 => 12
       case 6 => 13 case 7 => 13 case 8 => 13 case 9 => 13 case 10 => 13 case 11 => 13 case 12 => 14
       case 13 => 14 case 14 => 15 case _ => 15)
    case 13 => (match y case 0 => 12 case 1 => 12 case 2 => 12 case 3 => 12 case 4 => 12 case 5 => 13
       case 6 => 13 case 7 => 13 case 8 => 13 case 9 => 14 case 10 => 14 case 11 => 14 case 12 => 14
       case 13 => 14 case 14 => 15 case _ => 15)
    case 14 => (match y case 0 => 13 case 1 => 13 case 2 => 13 case 3 => 13 case 4 => 13 case 5 => 13
       case 6 => 13 case 7 => 13 case 8 => 14 case 9 => 14 case 10 => 14 case 11 => 14 case 12 => 15
       case 13 => 15 case 14 => 14 case _ => 15)
    case _ => (match y case 0 => 13 case 1 => 13 case 2 => 13 case 3 => 13 case 4 => 13 case 5 => 13
       case 6 => 13 case 7 => 14 case 8 => 14 case 9 => 14 case 10 => 14 case 11 => 14 case 12 => 15
       case 13 => 15 case 14 => 15 case _ => 15)
  }

  function t16l(x: nat, y: nat): nat {
    match x
    case 0 => (match y case 0 => 1 case 1 => 5 case 2 => 7 case 3 => 9 case 4 => 10 case 5 => 10 case 6 => 11
       case 7 => 11 case 8 => 12 case 9 => 12 case 10 => 12 case 11 => 13 case 12 => 13 case 13 => 13
       case 14 => 14 case _ => 10)
    case 1 => (match y case 0 => 4 case 1 => 6 case 2 => 8 case 3 => 9 case 4 => 10 case 5 => 11 case 6 => 11
       case 7 => 11 case 8 => 12 case 9 => 12 case 10 => 12 case 11 => 13 case 12 => 14 case 13 => 13
       case 14 => 14 case _ => 10)
    case 2 => (match y case 0 => 7 case 1 => 8 case 2 => 9 case 3 => 10 case 4 => 11 case 5 => 11 case 6 => 12
       case 7 => 12 case 8 => 13 case 9 => 12 case 10 => 13 case 11 => 13 case 12 => 13 case 13 => 14
       case 14 => 14 case _ => 11)
    case 3 => (match y case 0 => 9 case 1 => 9 case 2 => 10 case 3 => 11 case 4 => 11 case 5 => 12 case 6 => 12
       case 7 => 12 case 8 => 13 case 9 => 13 case 10 => 14 case 11 => 14 case 12 => 14 case 13 => 15
       case 14 => 15 case _ => 12)
    case 4 => (match y case 0 => 10 case 1 => 10 case 2 => 11 case 3 => 11 case 4 => 12 case 5 => 12
       case 6 => 13 case 7 => 13 case 8 => 13 case 9 => 14 case 10 => 14 case 11 => 14 case 12 => 15
       case 13 => 15 case 14 => 15 case _ => 11)
    case 5 => (match y case 0 => 10 case 1 => 10 case 2 => 11 case 3 => 11 case 4 => 12 case 5 => 13
       case 6 => 13 case 7 => 14 case 8 => 13 case 9 => 14 case 10 => 14 case 11 => 15 case 12 => 15
       case 13 => 15 case 14 => 16 case _ => 12)
    case 6 => (match y case 0 => 11 case 1 => 11 case 2 => 11 case 3 => 12 case 4 => 13 case 5 => 13
       case 6 => 13 case 7 => 13 case 8 => 14 case 9 => 14 case 10 => 14 case 11 => 14 case 12 => 15
       case 13 => 15 case 14 => 16 case _ => 12)
    case 7 => (match y case 0 => 11 case 1 => 11 case 2 => 12 case 3 => 12 case 4 => 13 case 5 => 13
       case 6 => 13 case 7 => 14 case 8 => 14 case 9 => 15 case 10 => 15 case 11 => 15 case 12 => 15
       case 13 => 17 case 14 => 17 case _ => 12)
    case 8 => (match y case 0 => 11 case 1 => 12 case 2 => 12 case 3 => 13 case 4 => 13 case 5 => 13
       case 6 => 14 case 7 => 14 case 8 => 15 case 9 => 15 case 10 => 15 case 11 => 15 case 12 => 16
       case 13 => 16 case 14 => 16 case _ => 12)
    case 9 => (match y case 0 => 12 case 1 => 12 case 2 => 12 case 3 => 13 case 4 => 13 case 5 => 14
       case 6 => 14 case 7 => 15 case 8 => 15 case 9 => 15 case 10 => 15 case 11 => 16 case 12 => 15
       case 13 => 16 case 14 => 15 case _ => 13)
    case 10 => (match y case 0 => 12 case 1 => 13 case 2 => 12 case 3 => 13 case 4 => 14 case 5 => 14
       case 6 => 14 case 7 => 14 case 8 => 15 case 9 => 16 case 10 => 16 case 11 => 16 case 12 => 17
       case 13 => 17 case 14 => 16 case _ => 12)
    case 11 => (match y case 0 => 13 case 1 => 13 case 2 => 13 case 3 => 13 case 4 => 14 case 5 => 14
       case 6 => 15 case 7 => 16 case 8 => 16 case 9 => 16 case 10 => 16 case 11 => 16 case 12 => 16
       case 13 => 15 case 14 => 16 case _ => 13)
    case 12 => (match y case 0 => 13 case 1 => 14 case 2 => 14 case 3 => 14 case 4 => 14 case 5 => 15
       case 6 => 15 case 7 => 15 case 8 => 15 case 9 => 17 case 10 => 16 case 11 => 16 case 12 => 16
       case 13 => 16 case 14 => 18 case _ => 13)
    case 13 => (match y case 0 => 15 case 1 => 14 case 2 => 14 case 3 => 14 case 4 => 15 case 5 => 15
       case 6 => 16 case 7 => 16 case 8 => 16 case 9 => 18 case 10 => 17 case 11 => 17 case 12 => 17
       case 13 => 19 case 14 => 17 case _ => 13)
    case 14 => (match y case 0 => 14 case 1 => 15 case 2 => 13 case 3 => 14 case 4 => 16 case 5 => 16
       case 6 => 15 case 7 => 16 case 8 => 16 case 9 => 17 case 10 => 18 case 11 => 17 case 12 => 19
       case 13 => 17 case 14 => 16 case _ => 13)
    case _ => (match y case 0 => 10 case 1 => 10 case 2 => 10 case 3 => 11 case 4 => 11 case 5 => 12
       case 6 => 12 case 7 => 12 case 8 => 13 case 9 => 13 case 10 => 13 case 11 => 13 case 12 => 13
       case 13 => 13 case 14 => 13 case _ => 10)
  }

  function t24l(x: nat, y: nat): nat {
    match x
    case 0 => (match y case 0 => 4 case 1 => 5 case 2 => 7 case 3 => 8 case 4 => 9 case 5 => 10 case 6 => 10
       case 7 => 11 case 8 => 11 case 9 => 12 case 10 => 12 case 11 => 12 case 12 => 12 case 13 => 12
       case 14 => 13 case _ => 10)
    case 1 => (match y case 0 => 5 case 1 => 6 case 2 => 7 case 3 => 8 case 4 => 9 case 5 => 10 case 6 => 10
       case 7 => 11 case 8 => 11 case 9 => 11 case 10 => 12 case 11 => 12 case 12 => 12 case 13 => 12
       case 14 => 12 case _ => 10)
    case 2 => (match y case 0 => 7 case 1 => 7 case 2 => 8 case 3 => 9 case 4 => 9 case 5 => 10 case 6 => 10
       case 7 => 11 case 8 => 11 case 9 => 11 case 10 => 11 case 11 => 12 case 12 => 12 case 13 => 12
       case 14 => 13 case _ => 9)
    case 3 => (match y case 0 => 8 case 1 => 8 case 2 => 9 case 3 => 9 case 4 => 10 case 5 => 10 case 6 => 10
       case 7 => 11 case 8 => 11 case 9 => 11 case 10 => 11 case 11 => 12 case 12 => 12 case 13 => 12
       case 14 => 12 case _ => 9)
    case 4 => (match y case 0 => 9 case 1 => 9 case 2 => 9 case 3 => 10 case 4 => 10 case 5 => 10 case 6 => 10
       case 7 => 11 case 8 => 11 case 9 => 11 case 10 => 12 case 11 => 12 case 12 => 12 case 13 => 12
       case 14 => 13 case _ => 9)
    case 5 => (match y case 0 => 10 case 1 => 9 case 2 => 10 case 3 => 10 case 4 => 10 case 5 => 10 case 6 => 11
       case 7 => 11 case 8 => 11 case 9 => 11 case 10 => 12 case 11 => 12 case 12 => 12 case 13 => 12
       case 14 => 12 case _ => 9)
    case 6 => (match y case 0 => 10 case 1 => 10 case 2 => 10 case 3 => 10 case 4 => 10 case 5 => 11
       case 6 => 11 case 7 => 11 case 8 => 11 case 9 => 12 case 10 => 12 case 11 => 12 case 12 => 12
       case 13 => 12 case 14 => 13 case _ => 9)
    case 7 => (match y case 0 => 11 case 1 => 10 case 2 => 10 case 3 => 10 case 4 => 11 case 5 => 11
       case 6 => 11 case 7 => 11 case 8 => 12 case 9 => 12 case 10 => 12 case 11 => 12 case 12 => 12
       case 13 => 13 case 14 => 13 case _ => 10)
    case 8 => (match y case 0 => 11 case 1 => 11 case 2 => 11 case 3 => 11 case 4 => 11 case 5 => 11
       case 6 => 11 case 7 => 11 case 8 => 11 case 9 => 12 case 10 => 12 case 11 => 12 case 12 => 12
       case 13 => 13 case 14 => 13 case _ => 10)
    case 9 => (match y case 0 => 11 case 1 => 11 case 2 => 11 case 3 => 11 case 4 => 11 case 5 => 11
       case 6 => 11 case 7 => 12 case 8 => 12 case 9 => 12 case 10 => 12 case 11 => 12 case 12 => 13
       case 13 => 13 case 14 => 13 case _ => 10)
    case 10 => (match y case 0 => 12 case 1 => 11 case 2 => 11 case 3 => 11 case 4 => 11 case 5 => 12
       case 6 => 12 case 7 => 12 case 8 => 12 case 9 => 12 case 10 => 12 case 11 => 13 case 12 => 13
       case 13 => 13 case 14 => 13 case _ => 10)
    case 11 => (match y case 0 => 12 case 1 => 12 case 2 => 11 case 3 => 11 case 4 => 11 case 5 => 12
       case 6 => 12 case 7 => 12 case 8 => 12 case 9 => 12 case 10 => 12 case 11 => 13 case 12 => 13
       case 13 => 13 case 14 => 13 case _ => 10)
    case 12 => (match y case 0 => 12 case 1 => 12 case 2 => 12 case 3 => 12 case 4 => 12 case 5 => 12
       case 6 => 12 case 7 => 12 case 8 => 12 case 9 => 12 case 10 => 13 case 11 => 13 case 12 => 13
       case 13 => 13 case 14 => 13 case _ => 10)
    case 13 => (match y case 0 => 12 case 1 => 12 case 2 => 12 case 3 => 12 case 4 => 12 case 5 => 12
       case 6 => 12 case 7 => 12 case 8 => 13 case 9 => 13 case 10 => 13 case 11 => 13 case 12 => 13
       case 13 => 13 case 14 => 13 case _ => 10)
    case 14 => (match y case 0 => 13 case 1 => 12 case 2 => 12 case 3 => 12 case 4 => 12 case 5 => 12
       case 6 => 12 case 7 => 13 case 8 => 13 case 9 => 13 case 10 => 13 case 11 => 13 case 12 => 13
       case 13 => 13 case 14 => 13 case _ => 10)
    case _ => (match y case 0 => 9 case 1 => 9 case 2 => 9 case 3 => 9 case 4 => 9 case 5 => 9 case 6 => 9
       case 7 => 9 case 8 => 9 case 9 => 9 case 10 => 9 case 11 => 10 case 12 => 10 case 13 => 10 case 14 => 10
       case _ => 6)
  }

  function t32l(x: nat, y: nat): nat {
    match x
    case 0 => (match y case 0 => 1 case 1 => 5 case 2 => 5 case _ => 7)
    case 1 => (match y case 0 => 5 case 1 => 8 case 2 => 7 case _ => 9)
    case 2 => (match y case 0 => 5 case 1 => 7 case 2 => 7 case _ => 9)
    case _ => (match y case 0 => 7 case 1 => 9 case 2 => 9 case _ => 10)
  }

  function t33l(x: nat, y: nat): nat {
    match x
    case 0 => (match y case 0 => 4 case 1 => 5 case 2 => 5 case _ => 6)
    case 1 => (match y case 0 => 5 case 1 => 6 case 2 => 6 case _ => 7)
    case 2 => (match y case 0 => 5 case 1 => 6 case 2 => 6 case _ => 7)
    case _ => (match y case 0 => 6 case 1 => 7 case 2 => 7 case _ => 8)
  }

  /** The lengths of pseudo-table 14. */
  function t16_5l(x: nat, y: nat): nat {
    match x
    case 0 => (match y case 0 => 1 case 1 => 5 case 2 => 7 case 3 => 9 case 4 => 10 case 5 => 10 case 6 => 11
       case 7 => 11 case 8 => 12 case 9 => 12 case 10 => 12 case 11 => 13 case 12 => 13 case 13 => 13
       case 14 => 14 case _ => 11)
    case 1 => (match y case 0 => 4 case 1 => 6 case 2 => 8 case 3 => 9 case 4 => 10 case 5 => 11 case 6 => 11
       case 7 => 11 case 8 => 12 case 9 => 12 case 10 => 12 case 11 => 13 case 12 => 14 case 13 => 13
       case 14 => 14 case _ => 11)
    case 2 => (match y case 0 => 7 case 1 => 8 case 2 => 9 case 3 => 10 case 4 => 11 case 5 => 11 case 6 => 12
       case 7 => 12 case 8 => 13 case 9 => 12 case 10 => 13 case 11 => 13 case 12 => 13 case 13 => 14
       case 14 => 14 case _ => 12)
    case 3 => (match y case 0 => 9 case 1 => 9 case 2 => 10 case 3 => 11 case 4 => 11 case 5 => 12 case 6 => 12
       case 7 => 12 case 8 => 13 case 9 => 13 case 10 => 14 case 11 => 14 case 12 => 14 case 13 => 15
       case 14 => 15 case _ => 13)
    case 4 => (match y case 0 => 10 case 1 => 10 case 2 => 11 case 3 => 11 case 4 => 12 case 5 => 12
       case 6 => 13 case 7 => 13 case 8 => 13 case 9 => 14 case 10 => 14 case 11 => 14 case 12 => 15
       case 13 => 15 case 14 => 15 case _ => 12)
    case 5 => (match y case 0 => 10 case 1 => 10 case 2 => 11 case 3 => 11 case 4 => 12 case 5 => 13
       case 6 => 13 case 7 => 14 case 8 => 13 case 9 => 14 case 10 => 14 case 11 => 15 case 12 => 15
       case 13 => 15 case 14 => 16 case _ => 13)
    case 6 => (match y case 0 => 11 case 1 => 11 case 2 => 11 case 3 => 12 case 4 => 13 case 5 => 13
       case 6 => 13 case 7 => 13 case 8 => 14 case 9 => 14 case 10 => 14 case 11 => 14 case 12 => 15
       case 13 => 15 case 14 => 16 case _ => 13)
    case 7 => (match y case 0 => 11 case 1 => 11 case 2 => 12 case 3 => 12 case 4 => 13 case 5 => 13
       case 6 => 13 case 7 => 14 case 8 => 14 case 9 => 15 case 10 => 15 case 11 => 15 case 12 => 15
       case 13 => 17 case 14 => 17 case _ => 13)
    case 8 => (match y case 0 => 11 case 1 => 12 case 2 => 12 case 3 => 13 case 4 => 13 case 5 => 13
       case 6 => 14 case 7 => 14 case 8 => 15 case 9 => 15 case 10 => 15 case 11 => 15 case 12 => 16
       case 13 => 16 case 14 => 16 case _ => 13)
    case 9 => (match y case 0 => 12 case 1 => 12 case 2 => 12 case 3 => 13 case 4 => 13 case 5 => 14
       case 6 => 14 case 7 => 15 case 8 => 15 case 9 => 15 case 10 => 15 case 11 => 16 case 12 => 15
       case 13 => 16 case 14 => 15 case _ => 14)
    case 10 => (match y case 0 => 12 case 1 => 13 case 2 => 12 case 3 => 13 case 4 => 14 case 5 => 14
       case 6 => 14 case 7 => 14 case 8 => 15 case 9 => 16 case 10 => 16 case 11 => 16 case 12 => 17
       case 13 => 17 case 14 => 16 case _ => 13)
    case 11 => (match y case 0 => 13 case 1 => 13 case 2 => 13 case 3 => 13 case 4 => 14 case 5 => 14
       case 6 => 15 case 7 => 16 case 8 => 16 case 9 => 16 case 10 => 16 case 11 => 16 case 12 => 16
       case 13 => 15 case 14 => 16 case _ => 14)
    case 12 => (match y case 0 => 13 case 1 => 14 case 2 => 14 case 3 => 14 case 4 => 14 case 5 => 15
       case 6 => 15 case 7 => 15 case 8 => 15 case 9 => 17 case 10 => 16 case 11 => 16 case 12 => 16
       case 13 => 16 case 14 => 18 case _ => 14)
    case 13 => (match y case 0 => 15 case 1 => 14 case 2 => 14 case 3 => 14 case 4 => 15 case 5 => 15
       case 6 => 16 case 7 => 16 case 8 => 16 case 9 => 18 case 10 => 17 case 11 => 17 case 12 => 17
       case 13 => 19 case 14 => 17 case _ => 14)
    case 14 => (match y case 0 => 14 case 1 => 15 case 2 => 13 case 3 => 14 case 4 => 16 case 5 => 16
       case 6 => 15 case 7 => 16 case 8 => 16 case 9 => 17 case 10 => 18 case 11 => 17 case 12 => 19
       case 13 => 17 case 14 => 16 case _ => 14)
    case _ => (match y case 0 => 11 case 1 => 11 case 2 => 11 case 3 => 12 case 4 => 12 case 5 => 13
       case 6 => 13 case 7 => 13 case 8 => 14 case 9 => 14 case 10 => 14 case 11 => 14 case 12 => 14
       case 13 => 14 case 14 => 14 case _ => 12)
  }

  /** Two lengths in a word, for tables that are counted together: 16 over 24, 2 over 3, 5 over 6. */
  function largetbl(x: nat, y: nat): nat {
    match x
    case 0 => (match y case 0 => 0x010004 case 1 => 0x050005 case 2 => 0x070007 case 3 => 0x090008
       case 4 => 0x0a0009 case 5 => 0x0a000a case 6 => 0x0b000a case 7 => 0x0b000b case 8 => 0x0c000b
       case 9 => 0x0c000c case 10 => 0x0c000c case 11 => 0x0d000c case 12 => 0x0d000c case 13 => 0x0d000c
       case 14 => 0x0e000d case _ => 0x0a000a)
    case 1 => (match y case 0 => 0x040005 case 1 => 0x060006 case 2 => 0x080007 case 3 => 0x090008
       case 4 => 0x0a0009 case 5 => 0x0b000a case 6 => 0x0b000a case 7 => 0x0b000b case 8 => 0x0c000b
       case 9 => 0x0c000b case 10 => 0x0c000c case 11 => 0x0d000c case 12 => 0x0e000c case 13 => 0x0d000c
       case 14 => 0x0e000c case _ => 0x0a000a)
    case 2 => (match y case 0 => 0x070007 case 1 => 0x080007 case 2 => 0x090008 case 3 => 0x0a0009
       case 4 => 0x0b0009 case 5 => 0x0b000a case 6 => 0x0c000a case 7 => 0x0c000b case 8 => 0x0d000b
       case 9 => 0x0c000b case 10 => 0x0d000b case 11 => 0x0d000c case 12 => 0x0d000c case 13 => 0x0e000c
       case 14 => 0x0e000d case _ => 0x0b0009)
    case 3 => (match y case 0 => 0x090008 case 1 => 0x090008 case 2 => 0x0a0009 case 3 => 0x0b0009
       case 4 => 0x0b000a case 5 => 0x0c000a case 6 => 0x0c000a case 7 => 0x0c000b case 8 => 0x0d000b
       case 9 => 0x0d000b case 10 => 0x0e000b case 11 => 0x0e000c case 12 => 0x0e000c case 13 => 0x0f000c
       case 14 => 0x0f000c case _ => 0x0c0009)
    case 4 => (match y case 0 => 0x0a0009 case 1 => 0x0a0009 case 2 => 0x0b0009 case 3 => 0x0b000a
       case 4 => 0x0c000a case 5 => 0x0c000a case 6 => 0x0d000a case 7 => 0x0d000b case 8 => 0x0d000b
       case 9 => 0x0e000b case 10 => 0x0e000c case 11 => 0x0e000c case 12 => 0x0f000c case 13 => 0x0f000c
       case 14 => 0x0f000d case _ => 0x0b0009)
    case 5 => (match y case 0 => 0x0a000a case 1 => 0x0a0009 case 2 => 0x0b000a case 3 => 0x0b000a
       case 4 => 0x0c000a case 5 => 0x0d000a case 6 => 0x0d000b case 7 => 0x0e000b case 8 => 0x0d000b
       case 9 => 0x0e000b case 10 => 0x0e000c case 11 => 0x0f000c case 12 => 0x0f000c case 13 => 0x0f000c
       case 14 => 0x10000c case _ => 0x0c0009)
    case 6 => (match y case 0 => 0x0b000a case 1 => 0x0b000a case 2 => 0x0b000a case 3 => 0x0c000a
       case 4 => 0x0d000a case 5 => 0x0d000b case 6 => 0x0d000b case 7 => 0x0d000b case 8 => 0x0e000b
       case 9 => 0x0e000c case 10 => 0x0e000c case 11 => 0x0e000c case 12 => 0x0f000c case 13 => 0x0f000c
       case 14 => 0x10000d case _ => 0x0c0009)
    case 7 => (match y case 0 => 0x0b000b case 1 => 0x0b000a case 2 => 0x0c000a case 3 => 0x0c000a
       case 4 => 0x0d000b case 5 => 0x0d000b case 6 => 0x0d000b case 7 => 0x0e000b case 8 => 0x0e000c
       case 9 => 0x0f000c case 10 => 0x0f000c case 11 => 0x0f000c case 12 => 0x0f000c case 13 => 0x11000d
       case 14 => 0x11000d case _ => 0x0c000a)
    case 8 => (match y case 0 => 0x0b000b case 1 => 0x0c000b case 2 => 0x0c000b case 3 => 0x0d000b
       case 4 => 0x0d000b case 5 => 0x0d000b case 6 => 0x0e000b case 7 => 0x0e000b case 8 => 0x0f000b
       case 9 => 0x0f000c case 10 => 0x0f000c case 11 => 0x0f000c case 12 => 0x10000c case 13 => 0x10000d
       case 14 => 0x10000d case _ => 0x0c000a)
    case 9 => (match y case 0 => 0x0c000b case 1 => 0x0c000b case 2 => 0x0c000b case 3 => 0x0d000b
       case 4 => 0x0d000b case 5 => 0x0e000b case 6 => 0x0e000b case 7 => 0x0f000c case 8 => 0x0f000c
       case 9 => 0x0f000c case 10 => 0x0f000c case 11 => 0x10000c case 12 => 0x0f000d case 13 => 0x10000d
       case 14 => 0x0f000d case _ => 0x0d000a)
    case 10 => (match y case 0 => 0x0c000c case 1 => 0x0d000b case 2 => 0x0c000b case 3 => 0x0d000b
       case 4 => 0x0e000b case 5 => 0x0e000c case 6 => 0x0e000c case 7 => 0x0e000c case 8 => 0x0f000c
       case 9 => 0x10000c case 10 => 0x10000c case 11 => 0x10000d case 12 => 0x11000d case 13 => 0x11000d
       case 14 => 0x10000d case _ => 0x0c000a)
    case 11 => (match y case 0 => 0x0d000c case 1 => 0x0d000c case 2 => 0x0d000b case 3 => 0x0d000b
       case 4 => 0x0e000b case 5 => 0x0e000c case 6 => 0x0f000c case 7 => 0x10000c case 8 => 0x10000c
       case 9 => 0x10000c case 10 => 0x10000c case 11 => 0x10000d case 12 => 0x10000d case 13 => 0x0f000d
       case 14 => 0x10000d case _ => 0x0d000a)
    case 12 => (match y case 0 => 0x0d000c case 1 => 0x0e000c case 2 => 0x0e000c case 3 => 0x0e000c
       case 4 => 0x0e000c case 5 => 0x0f000c case 6 => 0x0f000c case 7 => 0x0f000c case 8 => 0x0f000c
       case 9 => 0x11000c case 10 => 0x10000d case 11 => 0x10000d case 12 => 0x10000d case 13 => 0x10000d
       case 14 => 0x12000d case _ => 0x0d000a)
    case 13 => (match y case 0 => 0x0f000c case 1 => 0x0e000c case 2 => 0x0e000c case 3 => 0x0e000c
       case 4 => 0x0f000c case 5 => 0x0f000c case 6 => 0x10000c case 7 => 0x10000c case 8 => 0x10000d
       case 9 => 0x12000d case 10 => 0x11000d case 11 => 0x11000d case 12 => 0x11000d case 13 => 0x13000d
       case 14 => 0x11000d case _ => 0x0d000a)
    case 14 => (match y case 0 => 0x0e000d case 1 => 0x0f000c case 2 => 0x0d000c case 3 => 0x0e000c
       case 4 => 0x10000c case 5 => 0x10000c case 6 => 0x0f000c case 7 => 0x10000d case 8 => 0x10000d
       case 9 => 0x11000d case 10 => 0x12000d case 11 => 0x11000d case 12 => 0x13000d case 13 => 0x11000d
       case 14 => 0x10000d case _ => 0x0d000a)
    case _ => (match y case 0 => 0x0a0009 case 1 => 0x0a0009 case 2 => 0x0a0009 case 3 => 0x0b0009
       case 4 => 0x0b0009 case 5 => 0x0c0009 case 6 => 0x0c0009 case 7 => 0x0c0009 case 8 => 0x0d0009
       case 9 => 0x0d0009 case 10 => 0x0d0009 case 11 => 0x0d000a case 12 => 0x0d000a case 13 => 0x0d000a
       case 14 => 0x0d000a case _ => 0x0a0006)
  }

  function table23(x: nat, y: nat): nat {
    match x
    case 0 => (match y case 0 => 0x010002 case 1 => 0x040003 case _ => 0x070007)
    case 1 => (match y case 0 => 0x040004 case 1 => 0x050004 case _ => 0x070007)
    case _ => (match y case 0 => 0x060006 case 1 => 0x070007 case _ => 0x080008)
  }

  function table56(x: nat, y: nat): nat {
    match x
    case 0 => (match y case 0 => 0x010003 case 1 => 0x040004 case 2 => 0x070006 case _ => 0x080008)
    case 1 => (match y case 0 => 0x040004 case 1 => 0x050004 case 2 => 0x080006 case _ => 0x090007)
    case 2 => (match y case 0 => 0x070005 case 1 => 0x080006 case 2 => 0x090007 case _ => 0x0a0008)
    case _ => (match y case 0 => 0x080007 case 1 => 0x080007 case 2 => 0x090008 case _ => 0x0a0009)
  }

  // ----- ht[t]

  function Xlen(t: nat): nat {
    match t
    case 1 => 2
    case 2 => 3
    case 3 => 3
    case 5 => 4
    case 6 => 4
    case 7 => 6
    case 8 => 6
    case 9 => 6
    case 10 => 8
    case 11 => 8
    case 12 => 8
    case 13 => 16
    case 15 => 16
    case 16 => 1
    case 17 => 2
    case 18 => 3
    case 19 => 4
    case 20 => 6
    case 21 => 8
    case 22 => 10
    case 23 => 13
    case 24 => 4
    case 25 => 5
    case 26 => 6
    case 27 => 7
    case 28 => 8
    case 29 => 9
    case 30 => 11
    case 31 => 13
    case _ => 0
  }

  function Linmax(t: nat): nat {
    match t
    case 16 => 1
    case 17 => 3
    case 18 => 7
    case 19 => 15
    case 20 => 63
    case 21 => 255
    case 22 => 1023
    case 23 => 8191
    case 24 => 15
    case 25 => 31
    case 26 => 63
    case 27 => 127
    case 28 => 255
    case 29 => 511
    case 30 => 2047
    case 31 => 8191
    case _ => 0
  }

  function Word(t: nat, x: nat, y: nat): nat {
    match t
    case 1 => t1HB(x, y)
    case 2 => t2HB(x, y)
    case 3 => t3HB(x, y)
    case 5 => t5HB(x, y)
    case 6 => t6HB(x, y)
    case 7 => t7HB(x, y)
    case 8 => t8HB(x, y)
    case 9 => t9HB(x, y)
    case 10 => t10HB(x, y)
    case 11 => t11HB(x, y)
    case 12 => t12HB(x, y)
    case 13 => t13HB(x, y)
    case 15 => t15HB(x, y)
    case 16 => t16HB(x, y)
    case 17 => t16HB(x, y)
    case 18 => t16HB(x, y)
    case 19 => t16HB(x, y)
    case 20 => t16HB(x, y)
    case 21 => t16HB(x, y)
    case 22 => t16HB(x, y)
    case 23 => t16HB(x, y)
    case 24 => t24HB(x, y)
    case 25 => t24HB(x, y)
    case 26 => t24HB(x, y)
    case 27 => t24HB(x, y)
    case 28 => t24HB(x, y)
    case 29 => t24HB(x, y)
    case 30 => t24HB(x, y)
    case 31 => t24HB(x, y)
    case 32 => t32HB(x, y)
    case 33 => t33HB(x, y)
    case _ => 0
  }

  function Hlen(t: nat, x: nat, y: nat): nat {
    match t
    case 1 => t1l(x, y)
    case 2 => t2l(x, y)
    case 3 => t3l(x, y)
    case 5 => t5l(x, y)
    case 6 => t6l(x, y)
    case 7 => t7l(x, y)
    case 8 => t8l(x, y)
    case 9 => t9l(x, y)
    case 10 => t10l(x, y)
    case 11 => t11l(x, y)
    case 12 => t12l(x, y)
    case 13 => t13l(x, y)
    case 14 => t16_5l(x, y)
    case 15 => t15l(x, y)
    case 16 => t16l(x, y)
    case 17 => t16l(x, y)
    case 18 => t16l(x, y)
    case 19 => t16l(x, y)
    case 20 => t16l(x, y)
    case 21 => t16l(x, y)
    case 22 => t16l(x, y)
    case 23 => t16l(x, y)
    case 24 => t24l(x, y)
    case 25 => t24l(x, y)
    case 26 => t24l(x, y)
    case 27 => t24l(x, y)
    case 28 => t24l(x, y)
    case 29 => t24l(x, y)
    case 30 => t24l(x, y)
    case 31 => t24l(x, y)
    case 32 => t32l(x, y)
    case 33 => t33l(x, y)
    case _ => 0
  }
}
